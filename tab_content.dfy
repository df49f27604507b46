/** The conversation's tab area: six tabs, all mounted, of which the one
    whose route equals the current location is shown. */
module TabContent {
  import opened Common

  datatype Tab = Editor | Browser | Jupyter | Served | Terminal | VSCode

  /** The tabs in the order they are rendered. */
  const Tabs: seq<Tab> := [Editor, Browser, Jupyter, Served, Terminal, VSCode]

  /** What each tab's route adds to the conversation path. */
  function Suffix(t: Tab): string
  {
    match t
    case Editor => ""
    case Browser => "/browser"
    case Jupyter => "/jupyter"
    case Served => "/served"
    case Terminal => "/terminal"
    case VSCode => "/vscode"
  }

  /** `currentPath === `${conversationPath}${suffix}``: exact equality, so a
      trailing slash or a query string matches no tab. */
  predicate IsActive(currentPath: string, conversationPath: string, t: Tab)
  {
    currentPath == conversationPath + Suffix(t)
  }

  /** The suffixes tell the tabs apart. */
  lemma SuffixInjective(a: Tab, b: Tab)
    requires Suffix(a) == Suffix(b)
    ensures a == b
  {
  }

  /** At most one tab is active for any location. */
  lemma AtMostOneActive(currentPath: string, conversationPath: string, a: Tab, b: Tab)
    requires IsActive(currentPath, conversationPath, a) && IsActive(currentPath, conversationPath, b)
    ensures a == b
  {
    var n := |conversationPath|;
    assert Suffix(a) == currentPath[n..];
    assert Suffix(b) == currentPath[n..];
    SuffixInjective(a, b);
  }

  /** The active tab, if any. */
  function ActiveTab(currentPath: string, conversationPath: string): (r: Option<Tab>)
    ensures r.Some? ==> IsActive(currentPath, conversationPath, r.value)
    ensures r.None? ==> forall t: Tab :: !IsActive(currentPath, conversationPath, t)
  {
    if IsActive(currentPath, conversationPath, Editor) then Some(Editor)
    else if IsActive(currentPath, conversationPath, Browser) then Some(Browser)
    else if IsActive(currentPath, conversationPath, Jupyter) then Some(Jupyter)
    else if IsActive(currentPath, conversationPath, Served) then Some(Served)
    else if IsActive(currentPath, conversationPath, Terminal) then Some(Terminal)
    else if IsActive(currentPath, conversationPath, VSCode) then Some(VSCode)
    else None
  }

  const Shown: string := "opacity-100 z-10"
  const Hidden: string := "opacity-0 z-0" + " pointer-events-none"
  const Frame: string := "absolute inset-0" + " transition-opacity duration-300 "

  /** The class string of one tab's wrapper. */
  function TabClass(currentPath: string, conversationPath: string, t: Tab): string
  {
    Frame + if IsActive(currentPath, conversationPath, t) then Shown else Hidden
  }

  /** The wrappers of all six tabs, in render order. */
  function TabClasses(currentPath: string, conversationPath: string): (cs: seq<string>)
    ensures |cs| == 6
  {
    seq(6, i requires 0 <= i < 6 => TabClass(currentPath, conversationPath, Tabs[i]))
  }

  /** Every tab is rendered; the active one (if any) gets the visible
      classes and every other one is hidden and ignores the pointer. */
  lemma OnlyActiveShown(currentPath: string, conversationPath: string)
    ensures var cs := TabClasses(currentPath, conversationPath);
      forall i :: 0 <= i < 6 ==>
        (cs[i] == Frame + Shown <==> ActiveTab(currentPath, conversationPath) == Some(Tabs[i]))
  {
    var cs := TabClasses(currentPath, conversationPath);
    forall i | 0 <= i < 6
      ensures cs[i] == Frame + Shown <==> ActiveTab(currentPath, conversationPath) == Some(Tabs[i])
    {
      assert Shown != Hidden by { assert Shown[8] != Hidden[8]; }
      var a := ActiveTab(currentPath, conversationPath);
      if a.Some? && IsActive(currentPath, conversationPath, Tabs[i]) {
        AtMostOneActive(currentPath, conversationPath, a.value, Tabs[i]);
      }
    }
  }
}
