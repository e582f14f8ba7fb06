/** Strings as Go sees them: a string is a sequence of code points, its Go
    length is its UTF-8 length, and white space is what unicode.IsSpace says. */
module Text {

  datatype Option<+T> = None | Some(value: T)

  datatype Result<+T, +E> = Ok(value: T) | Err(error: E)

  predicate IsSpace(c: char) {
    || '\t' <= c <= '\r'
    || c == ' '
    || c == '\U{85}'
    || c == '\U{A0}'
    || c == '\U{1680}'
    || '\U{2000}' <= c <= '\U{200A}'
    || c == '\U{2028}'
    || c == '\U{2029}'
    || c == '\U{202F}'
    || c == '\U{205F}'
    || c == '\U{3000}'
  }

  /** strings.TrimSpace(s) == "". */
  predicate IsBlank(s: string) {
    forall i | 0 <= i < |s| :: IsSpace(s[i])
  }

  function TrimLeft(s: string): string {
    if s != "" && IsSpace(s[0]) then TrimLeft(s[1..]) else s
  }

  function TrimRight(s: string): string {
    if s != "" && IsSpace(s[|s| - 1]) then TrimRight(s[..|s| - 1]) else s
  }

  function TrimSpace(s: string): string {
    TrimRight(TrimLeft(s))
  }

  /** A string strings.TrimSpace leaves alone. */
  predicate Trimmed(s: string) {
    s == "" || (!IsSpace(s[0]) && !IsSpace(s[|s| - 1]))
  }

  /** The UTF-8 length of a string: what Go's len reports. */
  function ByteLen(s: string): nat {
    if s == "" then 0 else ByteLen(s[..|s| - 1]) + Width(s[|s| - 1])
  }

  function Width(c: char): nat {
    if c < '\U{80}' then 1 else if c < '\U{800}' then 2 else if c < '\U{10000}' then 3 else 4
  }

  /** strings.Join. */
  function Join(parts: seq<string>, separator: string): string {
    if parts == [] then ""
    else if |parts| == 1 then parts[0]
    else Join(parts[..|parts| - 1], separator) + separator + parts[|parts| - 1]
  }

  function NonEmpty(value: string, fallback: string): string {
    if value != "" then value else fallback
  }

  function FirstNonEmpty(texts: seq<string>): string {
    if texts == [] then "" else if texts[0] != "" then texts[0] else FirstNonEmpty(texts[1..])
  }

  lemma FirstNonEmptyOf(first: string, others: seq<string>)
    ensures FirstNonEmpty([first] + others) == if first != "" then first else FirstNonEmpty(others)
    ensures [first] + [] == [first]
  {
    assert ([first] + others)[1..] == others;
  }

  lemma {:induction false} FirstNonEmptyLast(texts: seq<string>, last: string)
    ensures FirstNonEmpty(texts + [last]) == if FirstNonEmpty(texts) != "" then FirstNonEmpty(texts) else last
  {
    if texts == [] {
      assert ([] + [last])[1..] == [];
    } else {
      FirstNonEmptyLast(texts[1..], last);
      assert (texts + [last])[1..] == texts[1..] + [last];
    }
  }

  function Max(a: int, b: int): int {
    if a > b then a else b
  }

  /** Concatenation may be grouped either way. */
  lemma Regroup<T>(a: seq<T>, b: seq<T>, c: seq<T>)
    ensures a + b + c == a + (b + c)
    ensures a + [] == a
  {
  }

  lemma {:induction false} TrimLeftIsTrimmed(s: string)
    ensures var r := TrimLeft(s); r == "" || !IsSpace(r[0])
    ensures |TrimLeft(s)| <= |s| && TrimLeft(s) == s[|s| - |TrimLeft(s)|..]
    ensures TrimLeft(s) == "" <==> IsBlank(s)
  {
    if s != "" && IsSpace(s[0]) {
      TrimLeftIsTrimmed(s[1..]);
      assert IsBlank(s[1..]) ==> IsBlank(s) by {
        assert forall i | 0 < i < |s| :: s[i] == s[1..][i - 1];
      }
    }
  }

  lemma {:induction false} TrimRightIsTrimmed(s: string)
    ensures var r := TrimRight(s); r == "" || !IsSpace(r[|r| - 1])
    ensures |TrimRight(s)| <= |s| && TrimRight(s) == s[..|TrimRight(s)|]
    ensures TrimRight(s) == "" <==> IsBlank(s)
  {
    if s != "" && IsSpace(s[|s| - 1]) {
      TrimRightIsTrimmed(s[..|s| - 1]);
    }
  }

  /** TrimSpace yields a trimmed string, is empty exactly on blank strings and
      keeps exactly the trimmed strings. */
  lemma TrimSpaceIsTrimmed(s: string)
    ensures Trimmed(TrimSpace(s))
    ensures TrimSpace(s) == "" <==> IsBlank(s)
    ensures Trimmed(s) <==> TrimSpace(s) == s
    ensures TrimSpace(TrimSpace(s)) == TrimSpace(s)
  {
    TrimLeftIsTrimmed(s);
    TrimRightIsTrimmed(TrimLeft(s));
    var t := TrimSpace(s);
    assert IsBlank(TrimLeft(s)) ==> TrimLeft(s) == "";
    assert TrimLeft(t) == t;
    assert TrimRight(t) == t;
  }

  lemma {:induction false} LeftIsBlank(s: string) returns (before: string)
    ensures IsBlank(before) && s == before + TrimLeft(s)
  {
    before := "";
    if s != "" && IsSpace(s[0]) {
      before := LeftIsBlank(s[1..]);
      before := [s[0]] + before;
      assert s == [s[0]] + s[1..];
    }
  }

  lemma {:induction false} RightIsBlank(s: string) returns (after: string)
    ensures IsBlank(after) && s == TrimRight(s) + after
  {
    after := "";
    if s != "" && IsSpace(s[|s| - 1]) {
      after := RightIsBlank(s[..|s| - 1]);
      after := after + [s[|s| - 1]];
      assert s == s[..|s| - 1] + [s[|s| - 1]];
    }
  }

  /** Trimming takes away space at both ends and nothing else. */
  lemma OnlySpaceIsTrimmed(s: string) returns (before: string, after: string)
    ensures IsBlank(before) && IsBlank(after) && s == before + TrimSpace(s) + after
  {
    before := LeftIsBlank(s);
    after := RightIsBlank(TrimLeft(s));
    Regroup(before, TrimSpace(s), after);
  }
}
