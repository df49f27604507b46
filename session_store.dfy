/** The browser's `sessionStorage` as the upload flow uses it: two keys,
    each holding the JSON text of one array. The JSON text itself is not
    modelled; a stored value is the array it encodes, or text that is not
    such an array. */
module SessionStore {
  import opened Common

  const InfoKey: string := "pendingDatasetInfo"
  const FilesKey: string := "pendingDatasetFiles"

  /** One element of `pendingDatasetInfo`. */
  datatype PendingInfo = PendingInfo(name: string, mimeType: string, extension: string, size: nat)

  /** One element of `pendingDatasetFiles`: the bytes as plain numbers. */
  datatype PendingFile = PendingFile(name: string, mimeType: string, data: seq<int>)

  /** What a key holds: one of the two arrays as written by the task form,
      or other text, which `JSON.parse` rejects unless it is empty (an
      empty value is never parsed). */
  datatype StoredValue =
    | Infos(infos: seq<PendingInfo>)
    | Files(files: seq<PendingFile>)
    | Text(text: string)

  /** `getItem` yields a string; the empty string is as falsy as a missing
      key, and the JSON text of an array never is empty. */
  predicate Truthy(v: StoredValue)
  {
    !(v.Text? && v.text == "")
  }

  /** `Array.from(new Uint8Array(buffer))`. */
  function EncodeBytes(data: seq<byte>): (xs: seq<int>)
    ensures |xs| == |data|
    ensures forall i :: 0 <= i < |xs| ==> 0 <= xs[i] < 256 && xs[i] == data[i] as int
  {
    seq(|data|, i requires 0 <= i < |data| => data[i] as int)
  }

  /** `new Uint8Array(numbers)`: each number is taken modulo 256. */
  function DecodeBytes(xs: seq<int>): (data: seq<byte>)
    ensures |data| == |xs|
    ensures forall i :: 0 <= i < |xs| ==> data[i] as int == xs[i] % 256
  {
    seq(|xs|, i requires 0 <= i < |xs| => (xs[i] % 256) as byte)
  }

  /** Storing bytes and reading them back gives the same bytes. */
  lemma BytesRoundTrip(data: seq<byte>)
    ensures DecodeBytes(EncodeBytes(data)) == data
  {
    var back := DecodeBytes(EncodeBytes(data));
    assert forall i :: 0 <= i < |data| ==> back[i] == data[i];
  }

  /** A stored number list reads back unchanged exactly when every number
      is a byte value. */
  lemma NumbersRoundTrip(xs: seq<int>)
    ensures EncodeBytes(DecodeBytes(xs)) == xs <==> forall i :: 0 <= i < |xs| ==> 0 <= xs[i] < 256
  {
    var back := EncodeBytes(DecodeBytes(xs));
    if forall i :: 0 <= i < |xs| ==> 0 <= xs[i] < 256 {
      assert forall i :: 0 <= i < |xs| ==> back[i] == xs[i];
    } else {
      var i :| 0 <= i < |xs| && !(0 <= xs[i] < 256);
      assert back[i] != xs[i];
    }
  }

  /** The storage area: a map from key to stored value. */
  class Store {
    var items: map<string, StoredValue>

    constructor ()
      ensures items == map[]
    {
      items := map[];
    }

    /** `sessionStorage.getItem(key)`. */
    method GetItem(key: string) returns (r: Option<StoredValue>)
      ensures key in items ==> r == Some(items[key])
      ensures key !in items ==> r == None
    {
      if key in items {
        r := Some(items[key]);
      } else {
        r := None;
      }
    }

    /** `sessionStorage.setItem(key, value)`. */
    method SetItem(key: string, value: StoredValue)
      modifies this
      ensures items == old(items)[key := value]
    {
      items := items[key := value];
    }

    /** `sessionStorage.setItem(key, value)` where the browser may refuse
        the write (its quota is exceeded): a refused write throws and leaves
        the storage as it was. `accepted` is the browser's answer. */
    method TrySetItem(key: string, value: StoredValue, accepted: bool) returns (thrown: bool)
      modifies this
      ensures thrown == !accepted
      ensures accepted ==> items == old(items)[key := value]
      ensures !accepted ==> items == old(items)
    {
      thrown := !accepted;
      if accepted {
        SetItem(key, value);
      }
    }

    /** `sessionStorage.removeItem(key)`. */
    method RemoveItem(key: string)
      modifies this
      ensures items == old(items) - {key}
    {
      items := items - {key};
    }
  }
}
