/** The task form on the home screen: its draft text, the images queued for
    the first message, the suggestion bubble, and the dataset files it
    parks in session storage until a conversation exists. */
module TaskForm {
  import opened Common
  import opened Text
  import opened FileKinds
  import opened SessionStore
  import UploadDataset
  import Http

  const UploadingNote: string := "Uploading dataset files..."

  const PipelineRequest: string :=
    "I want to analyze my dataset" + " and build an ML pipeline" + " following the CRISP-DM methodology."

  const PrepareFailureNote: string :=
    "\n\n" + "I tried to prepare dataset files" + " but encountered errors." + " Please try again."

  /** `prev ? `${prev}\n\n${t}` : t`. */
  function AppendParagraph(prev: string, t: string): (r: string)
    ensures StartsWith(r, prev) && EndsWith(r, t)
    ensures prev == "" ==> r == t
  {
    if prev != "" then prev + "\n\n" + t else t
  }

  /** The descriptor stored per dataset file. */
  function PendingInfos(ds: seq<File>): (infos: seq<PendingInfo>)
    ensures |infos| == |ds|
    ensures forall i :: 0 <= i < |ds| ==>
      infos[i] == PendingInfo(ds[i].name, ds[i].mimeType, UploadDataset.Extension(ds[i].name), ds[i].Size())
  {
    seq(|ds|, i requires 0 <= i < |ds| =>
      PendingInfo(ds[i].name, ds[i].mimeType, UploadDataset.Extension(ds[i].name), ds[i].Size()))
  }

  /** The bytes stored per dataset file, in batch order. */
  function PendingFiles(ds: seq<File>): (files: seq<PendingFile>)
    ensures |files| == |ds|
    ensures forall i :: 0 <= i < |ds| ==>
      files[i] == PendingFile(ds[i].name, ds[i].mimeType, EncodeBytes(ds[i].data))
  {
    seq(|ds|, i requires 0 <= i < |ds| => PendingFile(ds[i].name, ds[i].mimeType, EncodeBytes(ds[i].data)))
  }

  /** Every `FileReader` read of the batch succeeds (`Promise.all` resolves). */
  predicate AllRead(ds: seq<File>, readSucceeds: File -> bool)
  {
    forall i :: 0 <= i < |ds| ==> readSucceeds(ds[i])
  }

  /** The "Uploading dataset files..." note is never taken out again: it
      is still in the draft after the pipeline request or the failure note
      is added. */
  lemma UploadingNoteStays(prev: string)
    ensures var marked := AppendParagraph(prev, UploadingNote);
      && Contains(AppendParagraph(marked, PipelineRequest), UploadingNote)
      && Contains(marked + PrepareFailureNote, UploadingNote)
  {
    var lead := if prev != "" then prev + "\n\n" else "";
    var marked := AppendParagraph(prev, UploadingNote);
    assert marked == lead + UploadingNote;
    var after := if marked != "" then "\n\n" + PipelineRequest else PipelineRequest;
    assert AppendParagraph(marked, PipelineRequest) == lead + UploadingNote + after;
    ContainsInfix(lead, UploadingNote, after);
    ContainsInfix(lead, UploadingNote, PrepareFailureNote);
  }

  /** A suggestion: its key in the suggestion table and its text. */
  datatype Suggestion = Suggestion(key: string, value: string)

  /** The keys `onRefreshSuggestion` chooses from: all but the current one.
      A missing current suggestion (a choice from an empty table) removes
      nothing. */
  function Candidates(table: map<string, string>, current: Option<Suggestion>): (keys: set<string>)
    ensures keys <= table.Keys
    ensures current.Some? ==> current.value.key !in keys
    ensures current.None? ==> keys == table.Keys
  {
    if current.Some? then table.Keys - {current.value.key} else table.Keys
  }

  /** With two or more suggestions, a refresh always has something else to
      show. */
  lemma RefreshHasChoice(table: map<string, string>, current: Option<Suggestion>)
    requires |table| >= 2
    ensures Candidates(table, current) != {}
  {
    if current.Some? {
      var k :| k in table.Keys && k != current.value.key by {
        var a :| a in table.Keys;
        assert |table.Keys - {a}| >= 1;
        var b :| b in table.Keys - {a};
        if a == current.value.key {
          assert b in table.Keys && b != current.value.key;
        } else {
          assert a in table.Keys && a != current.value.key;
        }
      }
      assert k in Candidates(table, current);
    } else {
      var a :| a in table.Keys;
      assert a in Candidates(table, current);
    }
  }

  class TaskForm {
    /** The draft (`text`). */
    var text: string
    /** Images sent to the initial-query store, in order. */
    var images: seq<File>
    /** The suggestion bubble's current suggestion. */
    var suggestion: Option<Suggestion>

    /** The form starts empty, showing a suggestion chosen at random. */
    constructor (table: map<string, string>)
      ensures text == "" && images == []
      ensures suggestion.Some? <==> table != map[]
      ensures suggestion.Some? ==> suggestion.value.key in table && suggestion.value.value == table[suggestion.value.key]
    {
      text := "";
      images := [];
      if table.Keys != {} {
        var k :| k in table.Keys;
        suggestion := Some(Suggestion(k, table[k]));
      } else {
        suggestion := None;
      }
    }

    /** `onRefreshSuggestion`: a random key other than the current one. */
    method RefreshSuggestion(table: map<string, string>)
      modifies this
      ensures suggestion.Some? <==> Candidates(table, old(suggestion)) != {}
      ensures suggestion.Some? ==>
        && suggestion.value.key in Candidates(table, old(suggestion))
        && suggestion.value.value == table[suggestion.value.key]
      ensures text == old(text) && images == old(images)
    {
      var keys := Candidates(table, suggestion);
      if keys != {} {
        var k :| k in keys;
        suggestion := Some(Suggestion(k, table[k]));
      } else {
        suggestion := None;
      }
    }

    /** The upload handler of the dataset input. `readSucceeds(f)` says
        whether reading `f` as an array buffer succeeds, and `accepts(v)`
        whether session storage takes a write of `v` (a refused write, such
        as one over the quota, throws). Both writes sit in the same `.then`,
        so a throw from either lands in the `.catch`; a refused second write
        leaves the first one in place. No request is sent: the batch waits
        in session storage. */
    method OnUpload(uploaded: seq<File>, readSucceeds: File -> bool, accepts: StoredValue -> bool, store: Store)
      returns (requests: seq<Http.Request>)
      modifies this, store
      ensures requests == []
      ensures images == old(images) + Images(uploaded)
      ensures suggestion == old(suggestion)
      ensures var ds := Datasets(uploaded);
        var infoValue, filesValue := Infos(PendingInfos(ds)), Files(PendingFiles(ds));
        var marked := AppendParagraph(old(text), UploadingNote);
        && (|ds| == 0 ==> text == old(text) && store.items == old(store.items))
        && (|ds| > 0 && AllRead(ds, readSucceeds) && accepts(infoValue) && accepts(filesValue) ==>
              && text == AppendParagraph(marked, PipelineRequest)
              && store.items == old(store.items)[InfoKey := infoValue][FilesKey := filesValue])
        && (|ds| > 0 && AllRead(ds, readSucceeds) && accepts(infoValue) && !accepts(filesValue) ==>
              && text == marked + PrepareFailureNote
              && store.items == old(store.items)[InfoKey := infoValue])
        && (|ds| > 0 && AllRead(ds, readSucceeds) && !accepts(infoValue) ==>
              && text == marked + PrepareFailureNote
              && store.items == old(store.items))
        && (|ds| > 0 && !AllRead(ds, readSucceeds) ==>
              && text == marked + PrepareFailureNote
              && store.items == old(store.items))
    {
      requests := [];
      var ds := Datasets(uploaded);
      images := images + Images(uploaded);
      if |ds| > 0 {
        text := AppendParagraph(text, UploadingNote);
        var infoValue := Infos(PendingInfos(ds));
        var filesValue := Files(PendingFiles(ds));
        if AllRead(ds, readSucceeds) {
          var thrown := store.TrySetItem(InfoKey, infoValue, accepts(infoValue));
          if !thrown {
            thrown := store.TrySetItem(FilesKey, filesValue, accepts(filesValue));
          }
          if thrown {
            text := text + PrepareFailureNote;
          } else {
            text := AppendParagraph(text, PipelineRequest);
          }
        } else {
          text := text + PrepareFailureNote;
        }
      }
    }
  }
}
