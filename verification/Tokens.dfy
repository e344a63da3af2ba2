/** The in-place token splitter (src/glb_misc.c): pass one overwrites separators with
    terminators and counts token ends, pass two fills a list of exactly that size
    with token starts. */
module Tokens {

  const NUL: char := '\0'

  predicate IsSpace(c: char) {
    c == ' ' || c == '\t' || c == '\n' || c == '\U{000b}' || c == '\U{000c}' || c == '\r'
  }

  predicate IsSep(c: char, sep: char) {
    IsSpace(c) || c == sep
  }

  /** A terminated C string of at least one character. */
  ghost predicate IsString(o: seq<char>) {
    |o| >= 2 && o[|o| - 1] == NUL && forall i :: 0 <= i < |o| - 1 ==> o[i] != NUL
  }

  /** The string with every separator but the first character terminated. */
  ghost predicate IsCut(o: seq<char>, sep: char, t: seq<char>, n: nat)
    requires n <= |o|
  {
    |t| == |o| && forall i :: 0 <= i < |o| ==> t[i] == if 1 <= i < n && IsSep(o[i], sep) then NUL else o[i]
  }

  function Ends(t: seq<char>, n: nat): nat
    requires n < |t|
  {
    if n == 0 then 0 else Ends(t, n - 1) + (if t[n] == NUL && t[n - 1] != NUL then 1 else 0)
  }

  function Starts(t: seq<char>, n: nat): nat
    requires n < |t|
  {
    if n == 0 then 0 else Starts(t, n - 1) + (if t[n - 1] == NUL && t[n] != NUL then 1 else 0)
  }

  /** Ends and starts alternate: one more start than ends exactly inside a token. */
  lemma {:induction false} EndsMatchStarts(t: seq<char>, n: nat)
    requires n < |t| && t[0] != NUL
    ensures Ends(t, n) + (if t[n] != NUL then 1 else 0) == Starts(t, n) + 1
  {
    if n > 0 {
      EndsMatchStarts(t, n - 1);
    }
  }

  lemma {:induction false} StartsGrow(t: seq<char>, m: nat, n: nat)
    requires m <= n < |t|
    ensures Starts(t, m) <= Starts(t, n)
    decreases n
  {
    if m < n {
      StartsGrow(t, m, n - 1);
    }
  }

  /** Each start pass two finds still has room in a list sized by pass one, and at
      the end the list is full. */
  lemma ListFits(t: seq<char>, i: nat)
    requires 1 <= i < |t| && t[0] != NUL && t[|t| - 1] == NUL
    ensures 1 + Starts(t, i) <= Ends(t, |t| - 1) == 1 + Starts(t, |t| - 1)
    ensures Starts(t, i) == Starts(t, i - 1) + (if t[i - 1] == NUL && t[i] != NUL then 1 else 0)
  {
    EndsMatchStarts(t, |t| - 1);
    StartsGrow(t, i, |t| - 1);
  }

  lemma {:induction false} EndsPrefix(t: seq<char>, u: seq<char>, n: nat)
    requires n < |t| && n < |u| && forall i :: 0 <= i <= n ==> t[i] == u[i]
    ensures Ends(t, n) == Ends(u, n)
  {
    if n > 0 {
      EndsPrefix(t, u, n - 1);
    }
  }

  // ---------------------------------------------------------------- meaning

  /** Where tokens start: at the first character, whatever it is, and at every
      non-separator after a separator that is not the first character. */
  predicate IsStart(o: seq<char>, sep: char, i: nat) {
    i < |o| - 1 && (i == 0 || (i >= 2 && IsSep(o[i - 1], sep) && !IsSep(o[i], sep)))
  }

  /** One past the last character of the token that starts at `i`. */
  function TokenEnd(o: seq<char>, sep: char, i: nat): (j: nat)
    requires i < |o| - 1
    ensures i < j <= |o| - 1
    ensures forall p :: i < p < j ==> !IsSep(o[p], sep)
    ensures j == |o| - 1 || IsSep(o[j], sep)
    decreases |o| - i
  {
    if i + 1 == |o| - 1 || IsSep(o[i + 1], sep) then i + 1 else TokenEnd(o, sep, i + 1)
  }

  /** Every character that is no separator, and the first one, is in exactly one
      token. */
  lemma {:induction false} TokensCover(o: seq<char>, sep: char, p: nat) returns (i: nat)
    requires p < |o| - 1 && (p == 0 || !IsSep(o[p], sep))
    ensures IsStart(o, sep, i) && i <= p < TokenEnd(o, sep, i)
    decreases p
  {
    if p == 0 || (p >= 2 && IsSep(o[p - 1], sep)) {
      i := p;
    } else {
      i := TokensCover(o, sep, p - 1);
    }
  }

  lemma TokensDisjoint(o: seq<char>, sep: char, i: nat, j: nat)
    requires IsStart(o, sep, i) && IsStart(o, sep, j) && i < j
    ensures TokenEnd(o, sep, i) < j
  {
  }

  /** The C string found at a start in the cut buffer is the token. */
  lemma TokenText(o: seq<char>, sep: char, t: seq<char>, i: nat)
    requires IsString(o) && IsCut(o, sep, t, |o|) && IsStart(o, sep, i)
    ensures var j := TokenEnd(o, sep, i);
            t[i..j] == o[i..j] && t[j] == NUL && forall p :: i <= p < j ==> t[p] != NUL
  {
  }

  // -------------------------------------------------------------- the method

  /** The entries are the starts up to position `n`, in order. */
  ghost predicate ListsStarts(o: seq<char>, sep: char, list: seq<nat>, n: nat) {
    && (forall k :: 0 <= k < |list| ==> list[k] < n && IsStart(o, sep, list[k]))
    && (forall j, k :: 0 <= j < k < |list| ==> list[j] < list[k])
    && forall i: nat :: i < n && IsStart(o, sep, i) ==> i in list
  }

  /** Pass two recognises exactly the starts. */
  lemma StartIs(o: seq<char>, sep: char, t: seq<char>, i: nat)
    requires IsString(o) && IsCut(o, sep, t, |o|) && 1 <= i < |o|
    ensures IsStart(o, sep, i) <==> t[i - 1] == NUL && t[i] != NUL
  {
  }

  lemma ListTakes(o: seq<char>, sep: char, list: seq<nat>, i: nat)
    requires ListsStarts(o, sep, list, i) && IsStart(o, sep, i)
    ensures ListsStarts(o, sep, list + [i], i + 1)
  {
    var l := list + [i];
    forall j: nat | j < i + 1 && IsStart(o, sep, j)
      ensures j in l
    {
      if j < i {
        assert j in list;
      } else {
        assert l[|list|] == i;
      }
    }
  }

  lemma ListSkips(o: seq<char>, sep: char, list: seq<nat>, i: nat)
    requires ListsStarts(o, sep, list, i) && !IsStart(o, sep, i)
    ensures ListsStarts(o, sep, list, i + 1)
  {
  }

  /** Returns true on failure, as the source does: only the empty string fails. */
  method ParseTokens(str: array<char>, sep: char) returns (failed: bool, list: array<nat>)
    requires str.Length >= 1 && str[str.Length - 1] == NUL
    requires forall i :: 0 <= i < str.Length - 1 ==> str[i] != NUL
    modifies str
    ensures failed <==> str.Length == 1
    ensures failed ==> list.Length == 0 && str[..] == old(str[..])
    ensures !failed ==> IsCut(old(str[..]), sep, str[..], str.Length)
    ensures !failed ==> ListsStarts(old(str[..]), sep, list[..], str.Length - 1)
  {
    var tlen := str.Length - 1;
    if tlen == 0 {
      list := new nat[0];
      return true, list;
    }
    var num := CutSeparators(str, sep);
    list := FillStarts(str, num, old(str[..]), sep);
    failed := false;
  }

  /** Pass one. */
  method CutSeparators(str: array<char>, sep: char) returns (num: nat)
    requires IsString(str[..])
    modifies str
    ensures IsCut(old(str[..]), sep, str[..], str.Length) && num == Ends(str[..], str.Length - 1)
  {
    ghost var o := str[..];
    var tlen := str.Length - 1;
    num := 0;
    var i := 1;
    while i <= tlen
      invariant 1 <= i <= tlen + 1
      invariant IsCut(o, sep, str[..], i)
      invariant num == Ends(str[..], i - 1)
    {
      ghost var before := str[..];
      if IsSpace(str[i]) || sep == str[i] { str[i] := NUL; }
      EndsPrefix(before, str[..], i - 1);
      if str[i] == NUL && str[i - 1] != NUL { num := num + 1; }
      i := i + 1;
    }
  }

  /** Pass two: every write is inside the list pass one sized. */
  method FillStarts(str: array<char>, num: nat, ghost o: seq<char>, sep: char) returns (list: array<nat>)
    requires IsString(o) && |o| == str.Length
    requires IsCut(o, sep, str[..], str.Length) && num == Ends(str[..], str.Length - 1)
    ensures fresh(list) && list.Length == num
    ensures ListsStarts(o, sep, list[..], str.Length - 1)
  {
    ghost var t := str[..];
    var tlen := str.Length - 1;
    FillBegins(o, sep, t);
    assert num == Ends(t, |t| - 1);
    list := new nat[num];
    list[0] := 0;
    ghost var l: seq<nat> := [0];
    var n := 1;
    var i := 1;
    while i <= tlen
      invariant 1 <= i <= tlen + 1
      invariant n == |l| <= num == list.Length
      invariant FillInv(o, sep, t, l, i) && forall k :: 0 <= k < n ==> list[k] == l[k]
    {
      if str[i - 1] == NUL && str[i] != NUL {
        TakeStart(o, sep, t, l, i);
        list[n] := i;
        n, l := n + 1, l + [i];
      } else {
        SkipPosition(o, sep, t, l, i);
      }
      i := i + 1;
    }
    FillEnds(o, sep, t, l);
    assert list[..] == l;
  }

  /** The list so far: all starts before `i`, and its length agrees with the count. */
  ghost predicate FillInv(o: seq<char>, sep: char, t: seq<char>, l: seq<nat>, i: nat) {
    1 <= i <= |t| && ListsStarts(o, sep, l, i) && |l| == 1 + Starts(t, i - 1)
  }

  lemma FillBegins(o: seq<char>, sep: char, t: seq<char>)
    requires IsString(o) && IsCut(o, sep, t, |o|)
    ensures FillInv(o, sep, t, [0], 1) && Ends(t, |t| - 1) >= 1
  {
    ListFits(t, |t| - 1);
  }

  lemma TakeStart(o: seq<char>, sep: char, t: seq<char>, l: seq<nat>, i: nat)
    requires IsString(o) && IsCut(o, sep, t, |o|) && FillInv(o, sep, t, l, i) && i < |t|
    requires t[i - 1] == NUL && t[i] != NUL
    ensures FillInv(o, sep, t, l + [i], i + 1) && |l| < Ends(t, |t| - 1)
  {
    ListFits(t, i);
    StartIs(o, sep, t, i);
    ListTakes(o, sep, l, i);
  }

  lemma SkipPosition(o: seq<char>, sep: char, t: seq<char>, l: seq<nat>, i: nat)
    requires IsString(o) && IsCut(o, sep, t, |o|) && FillInv(o, sep, t, l, i) && i < |t|
    requires !(t[i - 1] == NUL && t[i] != NUL)
    ensures FillInv(o, sep, t, l, i + 1)
  {
    ListFits(t, i);
    StartIs(o, sep, t, i);
    ListSkips(o, sep, l, i);
  }

  lemma FillEnds(o: seq<char>, sep: char, t: seq<char>, l: seq<nat>)
    requires IsString(o) && IsCut(o, sep, t, |o|) && FillInv(o, sep, t, l, |t|)
    ensures |l| == Ends(t, |t| - 1) && ListsStarts(o, sep, l, |o| - 1)
  {
    ListFits(t, |t| - 1);
  }
}
