/**
 * The parts of java.lang.String that the notifier relies on, stated over
 * `seq<char>`: null references, `trim()`, the regex class `\s` used by
 * `replaceAll("\\s", "")`, string concatenation with a null operand, and
 * `split(",")` with its rule that trailing empty tokens are dropped.
 */
module JavaLang {

  /** A Java reference that may be null. */
  datatype Option<+T> = None | Some(value: T)

  /** `"" + s` in Java: a null operand is rendered as the text "null". */
  function NullToString(s: Option<string>): string {
    match s
    case None => "null"
    case Some(v) => v
  }

  /** An ASCII decimal digit: a character the regex class `[^0-9]` does not match. */
  predicate IsDigit(c: char) {
    '0' <= c <= '9'
  }

  // ---------------------------------------------------------------------
  // String.trim()
  // ---------------------------------------------------------------------

  /** `trim()` removes every character at or below U+0020 from both ends. */
  predicate IsTrimmable(c: char) {
    c <= ' '
  }

  predicate AllTrimmable(s: string) {
    forall k :: 0 <= k < |s| ==> IsTrimmable(s[k])
  }

  /** The first loop of `trim()`: `st` moves right past characters at or below U+0020. */
  function TrimStart(s: string, st: nat): (r: nat)
    requires st <= |s|
    ensures st <= r <= |s|
    ensures forall k :: st <= k < r ==> IsTrimmable(s[k])
    ensures r < |s| ==> !IsTrimmable(s[r])
    decreases |s| - st
  {
    if st < |s| && IsTrimmable(s[st]) then TrimStart(s, st + 1) else st
  }

  /** The second loop of `trim()`: `len` moves left past characters at or below U+0020, not below `st`. */
  function TrimEnd(s: string, st: nat, len: nat): (r: nat)
    requires st <= len <= |s|
    ensures st <= r <= len
    ensures forall k :: r <= k < len ==> IsTrimmable(s[k])
    ensures st < r ==> !IsTrimmable(s[r - 1])
    decreases len
  {
    if st < len && IsTrimmable(s[len - 1]) then TrimEnd(s, st, len - 1) else len
  }

  /**
   * `s.trim()`: `substring(st, len)` once both loops have stopped. It is
   * empty exactly when `s` has no character above U+0020, and otherwise it
   * starts and ends with such a character.
   */
  function Trim(s: string): (r: string)
    ensures |r| <= |s|
    ensures r == [] <==> AllTrimmable(s)
    ensures r != [] ==> !IsTrimmable(r[0]) && !IsTrimmable(r[|r| - 1])
    ensures exists st ::
              && 0 <= st && st + |r| <= |s| && r == s[st..st + |r|]
              && AllTrimmable(s[..st]) && AllTrimmable(s[st + |r|..])
  {
    var st := TrimStart(s, 0);
    var len := TrimEnd(s, st, |s|);
    assert st == len ==> st == |s|;
    assert AllTrimmable(s[..st]);
    assert AllTrimmable(s[len..]);
    s[st..len]
  }

  /** A string that starts and ends above U+0020 is its own trimmed form. */
  lemma TrimUnchanged(s: string)
    requires s == [] || (!IsTrimmable(s[0]) && !IsTrimmable(s[|s| - 1]))
    ensures Trim(s) == s
  {
    if s != [] {
      assert TrimStart(s, 0) == 0;
      assert TrimEnd(s, 0, |s|) == |s|;
    }
    assert s[0..|s|] == s;
  }

  /** One blank on each side of a string that starts and ends above U+0020 is trimmed away. */
  lemma TrimPadded(x: string)
    requires x != [] && !IsTrimmable(x[0]) && !IsTrimmable(x[|x| - 1])
    ensures Trim([' '] + x + [' ']) == x
  {
    var padded := [' '] + x + [' '];
    assert padded[1] == x[0] && padded[|padded| - 2] == x[|x| - 1];
    assert TrimStart(padded, 1) == 1;
    assert TrimStart(padded, 0) == 1;
    assert TrimEnd(padded, 1, |padded| - 1) == |padded| - 1;
    assert TrimEnd(padded, 1, |padded|) == |padded| - 1;
    assert padded[1..|padded| - 1] == x;
  }

  /** Trimming twice is trimming once. */
  lemma TrimIdempotent(s: string)
    ensures Trim(Trim(s)) == Trim(s)
  {
    TrimUnchanged(Trim(s));
  }

  /**
   * The test `s == null || s.trim().length() == 0` (written as
   * `trim().equals("")` in one place): null, or nothing but characters at
   * or below U+0020.
   */
  predicate IsBlank(s: Option<string>)
    ensures IsBlank(s) <==> s.None? || AllTrimmable(s.value)
  {
    s.None? || |Trim(s.value)| == 0
  }

  // ---------------------------------------------------------------------
  // String.replaceAll("\\s", "")
  // ---------------------------------------------------------------------

  /** The regex class `\s`: space, tab, newline, vertical tab, form feed, carriage return. */
  predicate IsSpace(c: char) {
    c == ' ' || ('\t' <= c <= '\r')
  }

  predicate HasNoSpace(s: string) {
    forall k :: 0 <= k < |s| ==> !IsSpace(s[k])
  }

  /** `s.replaceAll("\\s", "")`: `s` with every `\s` character deleted, the rest kept in order. */
  function RemoveSpaces(s: string): (r: string)
    ensures |r| <= |s|
    ensures HasNoSpace(r)
    ensures HasNoSpace(s) ==> r == s
    decreases |s|
  {
    if s == [] then []
    else
      var rest := RemoveSpaces(s[1..]);
      assert s == [s[0]] + s[1..];
      if IsSpace(s[0]) then rest else [s[0]] + rest
  }

  /**
   * Only `\s` characters are deleted: nothing is added, and every other
   * character is kept as often as it occurs.
   */
  lemma {:induction false} RemoveSpacesKeepsOthers(s: string)
    ensures multiset(RemoveSpaces(s)) <= multiset(s)
    ensures forall c :: !IsSpace(c) ==> multiset(RemoveSpaces(s))[c] == multiset(s)[c]
    decreases |s|
  {
    if s != [] {
      RemoveSpacesKeepsOthers(s[1..]);
      assert s == [s[0]] + s[1..];
      assert multiset(s) == multiset{s[0]} + multiset(s[1..]);
    }
  }

  /** Deleting spaces commutes with concatenation, so the order of what is kept is the order in `s`. */
  lemma {:induction false} RemoveSpacesAppend(a: string, b: string)
    ensures RemoveSpaces(a + b) == RemoveSpaces(a) + RemoveSpaces(b)
    decreases |a|
  {
    if a != [] {
      assert (a + b)[1..] == a[1..] + b;
      RemoveSpacesAppend(a[1..], b);
    } else {
      assert a + b == b;
    }
  }

  /** The blank after a comma between two space-free strings is deleted. */
  lemma RemoveSpaceAfterComma(a: string, b: string)
    requires HasNoSpace(a) && HasNoSpace(b)
    ensures RemoveSpaces(a + ([Comma] + ([' '] + b))) == a + ([Comma] + b)
  {
    RemoveSpacesAppend(a, [Comma] + ([' '] + b));
    RemoveSpacesAppend([Comma], [' '] + b);
    RemoveSpacesAppend([' '], b);
  }

  // ---------------------------------------------------------------------
  // String.split(",")
  // ---------------------------------------------------------------------

  const Comma: char := ','

  /** Tokens joined with commas: the inverse of `Tokens`. */
  function Join(ts: seq<string>): (r: string)
    decreases |ts|
  {
    if |ts| == 0 then ""
    else if |ts| == 1 then ts[0]
    else ts[0] + ([Comma] + Join(ts[1..]))
  }

  /**
   * Every piece of `s` between commas, including empty and trailing ones
   * (what `split` produces before it drops trailing empty tokens).
   */
  function Tokens(s: string): (r: seq<string>)
    ensures |r| >= 1
    ensures forall k :: 0 <= k < |r| ==> Comma !in r[k]
    decreases |s|
  {
    if s == [] then [[]]
    else
      var rest := Tokens(s[1..]);
      if s[0] == Comma then [[]] + rest else [[s[0]] + rest[0]] + rest[1..]
  }

  /** Joining the tokens of `s` with commas gives `s` back. */
  lemma {:induction false} JoinTokens(s: string)
    ensures Join(Tokens(s)) == s
    decreases |s|
  {
    if s != [] {
      var rest := Tokens(s[1..]);
      JoinTokens(s[1..]);
      assert s == [s[0]] + s[1..];
      if s[0] != Comma {
        JoinHead([s[0]], rest);
      }
    }
  }

  /** The tokens of a string without spaces have no spaces. */
  lemma {:induction false} TokensHaveNoSpace(s: string)
    requires HasNoSpace(s)
    ensures forall k :: 0 <= k < |Tokens(s)| ==> HasNoSpace(Tokens(s)[k])
    decreases |s|
  {
    if s != [] {
      TokensHaveNoSpace(s[1..]);
    }
  }

  /** Two pieces joined: the first, a comma, the second. */
  lemma JoinPair(a: string, b: string)
    ensures Join([a, b]) == a + ([Comma] + b)
  {
    assert [a, b][1..] == [b];
  }

  /** Growing the first token grows the joined string at its front. */
  lemma {:induction false} JoinHead(a: string, ts: seq<string>)
    requires |ts| >= 1
    ensures Join([a + ts[0]] + ts[1..]) == a + Join(ts)
  {
    var us := [a + ts[0]] + ts[1..];
    assert us[0] == a + ts[0];
    if |ts| > 1 {
      assert us[1..] == ts[1..];
      assert Join(us) == us[0] + ([Comma] + Join(us[1..]));
      assert Join(ts) == ts[0] + ([Comma] + Join(ts[1..]));
    }
  }

  /** Splitting comma-free tokens joined by commas gives the tokens back. */
  lemma {:induction false} TokensJoin(ts: seq<string>)
    requires |ts| >= 1
    requires forall k :: 0 <= k < |ts| ==> Comma !in ts[k]
    ensures Tokens(Join(ts)) == ts
    decreases |ts|
  {
    if |ts| == 1 {
      TokensOfCommaFree(ts[0]);
    } else {
      TokensJoin(ts[1..]);
      TokensPrefix(ts[0], Join(ts[1..]));
      assert [ts[0]] + ts[1..] == ts;
    }
  }

  /** A comma-free string is one token. */
  lemma {:induction false} TokensOfCommaFree(s: string)
    requires Comma !in s
    ensures Tokens(s) == [s]
    decreases |s|
  {
    if s != [] {
      TokensOfCommaFree(s[1..]);
      assert [s[0]] + s[1..] == s;
    }
  }

  /** A comma-free head followed by a comma starts a new token. */
  lemma {:induction false} TokensPrefix(a: string, b: string)
    requires Comma !in a
    ensures Tokens(a + ([Comma] + b)) == [a] + Tokens(b)
    decreases |a|
  {
    var s := a + ([Comma] + b);
    if a == [] {
      assert s[1..] == b;
    } else {
      assert s[1..] == a[1..] + ([Comma] + b);
      TokensPrefix(a[1..], b);
      assert [a[0]] + a[1..] == a;
    }
  }

  /** No character of `s` is at or below U+0020 (so none is trimmed or a `\s`). */
  predicate AllAbove(s: string) {
    forall k :: 0 <= k < |s| ==> !IsTrimmable(s[k])
  }

  /** Joining pieces with no character at or below U+0020 gives such a string. */
  lemma {:induction false} JoinAllAbove(ts: seq<string>)
    requires forall i :: 0 <= i < |ts| ==> AllAbove(ts[i])
    ensures AllAbove(Join(ts))
    decreases |ts|
  {
    if |ts| > 1 {
      JoinAllAbove(ts[1..]);
      var rest := [Comma] + Join(ts[1..]);
      assert AllAbove(rest);
      forall k | 0 <= k < |ts[0] + rest| ensures !IsTrimmable((ts[0] + rest)[k]) {
        if k >= |ts[0]| { assert (ts[0] + rest)[k] == rest[k - |ts[0]|]; }
      }
    }
  }

  /** `ts` without its trailing empty tokens. */
  function DropTrailingEmpty(ts: seq<string>): (r: seq<string>)
    ensures |r| <= |ts| && r == ts[..|r|]
    ensures forall k :: |r| <= k < |ts| ==> ts[k] == []
    ensures r != [] ==> r[|r| - 1] != []
    decreases |ts|
  {
    if ts != [] && ts[|ts| - 1] == [] then DropTrailingEmpty(ts[..|ts| - 1]) else ts
  }

  /**
   * `s.split(",")`. When `s` holds no comma the result is `[s]` itself
   * (even for the empty string); otherwise it is the comma-separated
   * tokens with the trailing empty ones dropped, so leading and inner
   * empty tokens are kept and `","` gives the empty list.
   */
  function Split(s: string): (r: seq<string>)
    ensures Comma !in s ==> r == [s]
    ensures Comma in s ==> |r| <= |Tokens(s)| && r == Tokens(s)[..|r|]
    ensures Comma in s ==> forall k :: |r| <= k < |Tokens(s)| ==> Tokens(s)[k] == []
    ensures Comma in s ==> r == [] || r[|r| - 1] != []
    ensures forall k :: 0 <= k < |r| ==> Comma !in r[k]
  {
    if Comma !in s then [s] else DropTrailingEmpty(Tokens(s))
  }

  /**
   * Splitting comma-free pieces joined with commas (at least two, so at
   * least one comma) gives the pieces back less the trailing empty ones.
   */
  lemma SplitJoin(ts: seq<string>)
    requires |ts| >= 2
    requires forall k :: 0 <= k < |ts| ==> Comma !in ts[k]
    ensures Split(Join(ts)) == DropTrailingEmpty(ts)
  {
    TokensJoin(ts);
    assert Join(ts) == ts[0] + ([Comma] + Join(ts[1..]));
    assert Join(ts)[|ts[0]|] == Comma;
  }

  /** Pieces whose last one is non-empty are kept whole, empty ones included. */
  lemma DropTrailingEmptyKeeps(ts: seq<string>)
    requires ts == [] || ts[|ts| - 1] != []
    ensures DropTrailingEmpty(ts) == ts
  {
  }
}
