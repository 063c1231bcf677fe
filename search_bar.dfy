/**
 * The search bar: one piece of state, the text in the input field, and two
 * handlers whose purpose is to call back into the application.  The callbacks
 * are recorded in a ghost log instead of being run.
 */
module SearchBar {

  /**
   * The code points `String.prototype.trim` removes: the WhiteSpace and
   * LineTerminator code points of ECMA-262 (tab, vertical tab, form feed,
   * byte-order mark, the Unicode space separators, line feed, carriage return,
   * line and paragraph separators).  Within ASCII these are exactly the space
   * and TAB through CR; no letter or digit is one of them.
   */
  predicate IsWhitespace(c: char)
    ensures c as int < 0x80 ==> (IsWhitespace(c) <==> c == ' ' || '\U{0009}' <= c <= '\U{000D}')
    ensures ('a' <= c <= 'z') || ('A' <= c <= 'Z') || ('0' <= c <= '9') ==> !IsWhitespace(c)
  {
    // WhiteSpace: TAB, VT, FF, ZWNBSP and the space separators (category Zs)
    || c == '\U{0009}' || c == '\U{000B}' || c == '\U{000C}' || c == '\U{FEFF}'
    || c == '\U{0020}' || c == '\U{00A0}' || c == '\U{1680}'
    || ('\U{2000}' <= c <= '\U{200A}')
    || c == '\U{202F}' || c == '\U{205F}' || c == '\U{3000}'
    // LineTerminator: LF, CR, LS, PS
    || c == '\U{000A}' || c == '\U{000D}' || c == '\U{2028}' || c == '\U{2029}'
  }

  predicate AllWhitespace(s: string)
  {
    forall i :: 0 <= i < |s| ==> IsWhitespace(s[i])
  }

  /** The index of the first character of `s` at or after `k` that is not whitespace, or `|s|`. */
  function SkipLeading(s: string, k: nat): (i: nat)
    requires k <= |s|
    ensures k <= i <= |s|
    ensures forall m :: k <= m < i ==> IsWhitespace(s[m])
    ensures i < |s| ==> !IsWhitespace(s[i])
    decreases |s| - k
  {
    if k < |s| && IsWhitespace(s[k]) then SkipLeading(s, k + 1) else k
  }

  /**
   * The index just past the last character of `s` before `k`, and at or after
   * `lo`, that is not whitespace, or `lo`.
   */
  function SkipTrailing(s: string, lo: nat, k: nat): (j: nat)
    requires lo <= k <= |s|
    ensures lo <= j <= k
    ensures forall m :: j <= m < k ==> IsWhitespace(s[m])
    ensures j > lo ==> !IsWhitespace(s[j - 1])
    decreases k
  {
    if k > lo && IsWhitespace(s[k - 1]) then SkipTrailing(s, lo, k - 1) else k
  }

  /**
   * `s.trim()`: the part of `s` between its leading and trailing whitespace.  It
   * is empty exactly when `s` is all whitespace, and otherwise begins and ends
   * with a character that is not whitespace.
   */
  function Trim(s: string): (r: string)
    ensures exists i :: (0 <= i <= |s| - |r| && r == s[i..i + |r|]
                         && AllWhitespace(s[..i]) && AllWhitespace(s[i + |r|..]))
    ensures r == [] <==> AllWhitespace(s)
    ensures r != [] ==> !IsWhitespace(r[0]) && !IsWhitespace(r[|r| - 1])
  {
    var i := SkipLeading(s, 0);
    var j := SkipTrailing(s, i, |s|);
    TrimBounds(s, i, j);
    s[i..j]
  }

  /** What the two scans leave: whitespace, then `s[i..j]`, then whitespace. */
  lemma TrimBounds(s: string, i: nat, j: nat)
    requires i <= j <= |s|
    requires forall m :: 0 <= m < i ==> IsWhitespace(s[m])
    requires forall m :: j <= m < |s| ==> IsWhitespace(s[m])
    requires i < j ==> !IsWhitespace(s[i]) && !IsWhitespace(s[j - 1])
    ensures exists k :: (0 <= k <= |s| - |s[i..j]| && s[i..j] == s[k..k + |s[i..j]|]
                         && AllWhitespace(s[..k]) && AllWhitespace(s[k + |s[i..j]|..]))
    ensures s[i..j] == [] <==> AllWhitespace(s)
    ensures s[i..j] != [] ==> !IsWhitespace(s[i..j][0]) && !IsWhitespace(s[i..j][|s[i..j]| - 1])
  {
    assert AllWhitespace(s[..i]);
    assert AllWhitespace(s[j..]);
    assert s[i..j] == s[i..i + |s[i..j]|];
    if i < j {
      assert s[i..j][0] == s[i];
      assert s[i..j][|s[i..j]| - 1] == s[j - 1];
    }
  }

  /** A call the search bar makes into the application. */
  datatype Callback = OnSearch(city: string) | OnLocationRequest

  /** A search term as `onSearch` receives it: non-empty and without surrounding whitespace. */
  predicate CleanTerm(city: string)
  {
    city != [] && !IsWhitespace(city[0]) && !IsWhitespace(city[|city| - 1])
  }

  class SearchBarState {
    /** The text in the input field. */
    var query: string
    /** Every callback made so far, oldest first. */
    ghost var calls: seq<Callback>

    /** Every search the bar has issued carried a clean term. */
    ghost predicate Valid()
      reads this
    {
      forall j :: 0 <= j < |calls| && calls[j].OnSearch? ==> CleanTerm(calls[j].city)
    }

    /** `useState("")`: the field starts empty and nothing has been called. */
    constructor ()
      ensures Valid()
      ensures query == "" && calls == []
    {
      query := "";
      calls := [];
    }

    /** A change event: the field's value replaces the query wholesale. */
    method Change(value: string)
      requires Valid()
      modifies this
      ensures Valid()
      ensures query == value && calls == old(calls)
    {
      query := value;
    }

    /**
     * `handleSubmit`: a trimmed, non-empty query is passed to `onSearch` once; an
     * empty or all-whitespace query calls nothing.  The query itself is kept as
     * typed.  `sent` is the trimmed query, empty when nothing was sent.
     */
    method Submit() returns (sent: string)
      requires Valid()
      modifies this
      ensures Valid()
      ensures query == old(query)
      ensures sent == Trim(query)
      ensures AllWhitespace(query) ==> calls == old(calls)
      ensures !AllWhitespace(query) ==> calls == old(calls) + [OnSearch(sent)] && CleanTerm(sent)
    {
      sent := Trim(query);
      assert sent == [] <==> AllWhitespace(query);
      if sent != [] {
        assert CleanTerm(sent);
        calls := calls + [OnSearch(sent)];
      }
    }

    /** `handleLocationRequest`: the query is cleared, then `onLocationRequest` is called once. */
    method RequestLocation()
      requires Valid()
      modifies this
      ensures Valid()
      ensures query == "" && calls == old(calls) + [OnLocationRequest]
    {
      query := "";
      calls := calls + [OnLocationRequest];
    }
  }
}
