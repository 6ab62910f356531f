/** Reading the depositor account from a bag's `bag-info.txt` header and
    normalising it through the account-substitution table. The header is
    given as its lines: the text between two platform line separators,
    which may still hold other line terminators such as a carriage return. */
module Depositor {
  import opened Wrappers
  import opened Records

  /** The header key whose value names the depositor account. */
  const AccountKey: string := "EASY-User-Account"

  /** Java's `String.trim` strips every character at or below U+0020. */
  predicate IsTrimmable(c: char) {
    c <= ' '
  }

  /** `s` with leading trimmable characters removed. */
  function TrimStart(s: string): (r: string)
    ensures |r| <= |s| && r == s[|s| - |r|..]
    ensures forall k :: 0 <= k < |s| - |r| ==> IsTrimmable(s[k])
    ensures r == [] || !IsTrimmable(r[0])
  {
    if |s| == 0 || !IsTrimmable(s[0]) then s
    else TrimStart(s[1..])
  }

  /** `s` with trailing trimmable characters removed. */
  function TrimEnd(s: string): (r: string)
    ensures |r| <= |s| && r == s[..|r|]
    ensures forall k :: |r| <= k < |s| ==> IsTrimmable(s[k])
    ensures r == [] || !IsTrimmable(r[|r| - 1])
  {
    if |s| == 0 || !IsTrimmable(s[|s| - 1]) then s
    else TrimEnd(s[..|s| - 1])
  }

  /** Everything of `s` outside `s[a..b]` is trimmable. */
  predicate BlankOutside(s: string, a: nat, b: nat)
    requires a <= b <= |s|
  {
    && (forall k :: 0 <= k < a ==> IsTrimmable(s[k]))
    && (forall k :: b <= k < |s| ==> IsTrimmable(s[k]))
  }

  /** Java's `String.trim`. */
  function Trim(s: string): (r: string)
    ensures exists a: nat, b: nat :: a <= b <= |s| && BlankOutside(s, a, b) && r == s[a..b]
    ensures r == [] || (!IsTrimmable(r[0]) && !IsTrimmable(r[|r| - 1]))
  {
    var t := TrimEnd(s);
    var u := TrimStart(t);
    TrimBounds(s, t, u);
    u
  }

  /** The two halves of `Trim` cut `s` at `|t| - |u|` and `|t|`. */
  lemma TrimBounds(s: string, t: string, u: string)
    requires t == TrimEnd(s) && u == TrimStart(t)
    ensures |u| <= |t| <= |s|
    ensures BlankOutside(s, |t| - |u|, |t|)
    ensures u == s[|t| - |u|..|t|]
  {
    var a := |t| - |u|;
    assert t == s[..|t|];
    assert u == t[a..];
    forall k | 0 <= k < a
      ensures IsTrimmable(s[k])
    {
      assert t[k] == s[k];
    }
  }

  /** The characters Java's regex `.` does not match without the DOTALL
      and UNIX_LINES flags. */
  predicate IsLineTerminator(c: char) {
    c == '\n' || c == '\r' || c == '\U{85}' || c == '\U{2028}' || c == '\U{2029}'
  }

  /** `s` is one stretch that `.` can match throughout. */
  predicate HasNoTerminator(s: string) {
    forall k :: 0 <= k < |s| ==> !IsLineTerminator(s[k])
  }

  /** The index of the first line terminator of `s`, or `|s|` when it has none. */
  function FirstTerminator(s: string): (k: nat)
    ensures k <= |s|
    ensures forall j :: 0 <= j < k ==> !IsLineTerminator(s[j])
    ensures k < |s| ==> IsLineTerminator(s[k])
  {
    if |s| == 0 || IsLineTerminator(s[0]) then 0
    else 1 + FirstTerminator(s[1..])
  }

  /** What `replaceAll(".*:", "")` leaves of a stretch without terminators:
      the longest suffix that holds no ':' (the whole stretch when it has no
      ':' at all). */
  function AfterLastColon(s: string): (r: string)
    ensures |r| <= |s| && r == s[|s| - |r|..]
    ensures ':' !in r
    ensures |r| < |s| ==> s[|s| - |r| - 1] == ':'
  {
    if |s| == 0 then s
    else if s[|s| - 1] == ':' then []
    else
      var p := AfterLastColon(s[..|s| - 1]);
      assert s[..|s| - 1][|s| - 1 - |p|..] == s[|s| - 1 - |p|..|s| - 1];
      p + [s[|s| - 1]]
  }

  /** What `replaceAll(".*:", "")` leaves of a line. Since `.` stops at a
      line terminator, each match runs from the start of a terminator-free
      stretch to its last ':'; the terminators themselves stay. */
  function DropColonPrefixes(s: string): (r: string)
    ensures HasNoTerminator(s) ==> r == AfterLastColon(s)
    ensures ':' !in r
    ensures |r| <= |s|
    decreases |s|
  {
    var k := FirstTerminator(s);
    if k == |s| then AfterLastColon(s)
    else AfterLastColon(s[..k]) + [s[k]] + DropColonPrefixes(s[k + 1..])
  }

  /** A header line that carries the account: it starts with the key. */
  predicate IsAccountLine(line: string) {
    AccountKey <= line
  }

  /** The account named on an account line. */
  function AccountValue(line: string): string {
    Trim(DropColonPrefixes(line))
  }

  /** The index of the first account line, or `|lines|` when there is none. */
  function FirstAccountLine(lines: seq<string>): (i: nat)
    ensures i <= |lines|
    ensures forall j :: 0 <= j < i ==> !IsAccountLine(lines[j])
    ensures i < |lines| ==> IsAccountLine(lines[i])
  {
    if |lines| == 0 || IsAccountLine(lines[0]) then 0
    else 1 + FirstAccountLine(lines[1..])
  }

  /** The value of the first account line of the header, or an error naming
      the bag when no line carries the key. */
  function ReadDepositor(lines: seq<string>, bag: string): (r: Result<string, Error>)
    ensures r.Failure? <==> forall i :: 0 <= i < |lines| ==> !IsAccountLine(lines[i])
    ensures r.Failure? ==> r.error == NoUserAccount(bag)
    ensures r.Success? ==> exists i ::
              && 0 <= i < |lines| && IsAccountLine(lines[i])
              && (forall j :: 0 <= j < i ==> !IsAccountLine(lines[j]))
              && r.value == AccountValue(lines[i])
  {
    var i := FirstAccountLine(lines);
    if i == |lines| then Failure(NoUserAccount(bag))
    else Success(AccountValue(lines[i]))
  }

  /** The account recorded for a depositor: its substitute when the table
      has one, the depositor itself otherwise. */
  function Account(substitutes: map<string, string>, depositor: string): (a: string)
    ensures depositor in substitutes ==> a == substitutes[depositor]
    ensures depositor !in substitutes ==> a == depositor
  {
    if depositor in substitutes then substitutes[depositor] else depositor
  }

  /** Lines after the first account line do not matter. */
  lemma {:induction false} LaterLinesIgnored(lines: seq<string>, more: seq<string>)
    requires exists i :: 0 <= i < |lines| && IsAccountLine(lines[i])
    ensures FirstAccountLine(lines + more) == FirstAccountLine(lines)
  {
    if IsAccountLine(lines[0]) {
      assert (lines + more)[0] == lines[0];
    } else {
      var i :| 0 <= i < |lines| && IsAccountLine(lines[i]);
      assert lines[1..][i - 1] == lines[i];
      LaterLinesIgnored(lines[1..], more);
      assert (lines + more)[1..] == lines[1..] + more;
    }
  }

  /** Trimming is idempotent, so a depositor value is already trimmed. */
  lemma TrimIdempotent(s: string)
    ensures Trim(Trim(s)) == Trim(s)
  {
    var t := Trim(s);
    if t != [] {
      assert TrimEnd(t) == t;
      assert TrimStart(t) == t;
    }
  }

  /** The stretches between line terminators are stripped independently:
      the replacement never reaches across a terminator. */
  lemma StretchesStrippedApart(a: string, c: char, b: string)
    requires HasNoTerminator(a) && IsLineTerminator(c)
    ensures DropColonPrefixes(a + [c] + b) == AfterLastColon(a) + [c] + DropColonPrefixes(b)
  {
    var s := a + [c] + b;
    assert s[|a|] == c;
    assert forall j :: 0 <= j < |a| ==> s[j] == a[j];
    assert FirstTerminator(s) == |a| by { FirstTerminatorAt(s, |a|); }
    assert s[..|a|] == a && s[|a| + 1..] == b;
  }

  /** A position preceded only by non-terminators and holding one is the
      first terminator. */
  lemma {:induction false} FirstTerminatorAt(s: string, k: nat)
    requires k < |s| && IsLineTerminator(s[k])
    requires forall j :: 0 <= j < k ==> !IsLineTerminator(s[j])
    ensures FirstTerminator(s) == k
  {
    if k > 0 {
      assert forall j :: 0 <= j < k - 1 ==> s[1..][j] == s[j + 1];
      FirstTerminatorAt(s[1..], k - 1);
    }
  }

  /** A header written with CRLF line ends splits into lines that end in a
      carriage return; the account is still read exactly, because the
      replacement leaves the return and the trim removes it. */
  lemma CarriageReturnIgnored(head: string, value: string)
    requires HasNoTerminator(head) && HasNoTerminator(value) && ':' !in value
    ensures AccountValue(head + ":" + value + "\r") == Trim(value)
  {
    var line := head + ":" + value;
    assert HasNoTerminator(line) by {
      NoTerminatorConcat(head, ":");
      NoTerminatorConcat(head + ":", value);
    }
    assert DropColonPrefixes(line + "\r") == value + "\r" by {
      StretchesStrippedApart(line, '\r', []);
      assert line + ['\r'] + [] == line + "\r";
      AfterColonSuffix(head, value);
    }
    TrimDropsReturn(value);
  }

  /** Joining two terminator-free stretches gives one. */
  lemma NoTerminatorConcat(a: string, b: string)
    requires HasNoTerminator(a) && HasNoTerminator(b)
    ensures HasNoTerminator(a + b)
  {
    forall k | 0 <= k < |a + b|
      ensures !IsLineTerminator((a + b)[k])
    {
      if k < |a| {
        assert (a + b)[k] == a[k];
      } else {
        assert (a + b)[k] == b[k - |a|];
      }
    }
  }

  /** A trailing carriage return is trimmed away. */
  lemma TrimDropsReturn(value: string)
    ensures Trim(value + "\r") == Trim(value)
  {
    var t := value + "\r";
    assert t[..|t| - 1] == value;
    assert TrimEnd(t) == TrimEnd(value);
  }

  /** Text after a colon that holds no colon itself is what survives. */
  lemma AfterColonSuffix(head: string, tail: string)
    requires ':' !in tail
    ensures AfterLastColon(head + ":" + tail) == tail
  {
    var s := head + ":" + tail;
    var r := AfterLastColon(s);
    assert s[|s| - |tail| - 1] == ':';
    assert s[|s| - |tail|..] == tail;
  }
}
