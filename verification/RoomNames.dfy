/** Names as the server settles them: tidied, and unlike every other name in the room whatever the case. */
module RoomNames {
  import opened Common

  const MAX_NAME_CHARS: nat := 64

  predicate IsSpace(c: char) {
    || '\U{9}' <= c <= '\U{D}' || '\U{1C}' <= c <= '\U{20}' || '\U{2000}' <= c <= '\U{200A}'
    || c in "\U{85}\U{A0}\U{1680}\U{2028}\U{2029}\U{202F}\U{205F}\U{3000}"
  }

  /** The words of a text, one space between them. */
  function Squeeze(s: string): (r: string)
    ensures r == "" <==> forall c :: c in s ==> IsSpace(c)
    ensures r != "" ==> !IsSpace(r[0]) && !IsSpace(r[|r| - 1])
    ensures forall i :: 0 <= i < |r| - 1 && IsSpace(r[i]) ==> r[i] == ' ' && !IsSpace(r[i + 1])
  {
    if s == "" then ""
    else
      var rest := Squeeze(s[1..]);
      assert s == [s[0]] + s[1..];
      if IsSpace(s[0]) then rest
      else if rest == "" then [s[0]]
      else if IsSpace(s[1]) then [s[0], ' '] + rest
      else [s[0]] + rest
  }

  /** The words of a text: its runs of characters that are no white space. */
  function Words(s: string): seq<string> {
    if s == "" then []
    else
      var rest := Words(s[1..]);
      if IsSpace(s[0]) then rest
      else if |s| == 1 || IsSpace(s[1]) || rest == [] then [[s[0]]] + rest
      else [[s[0]] + rest[0]] + rest[1..]
  }

  function Joined(words: seq<string>): string {
    if words == [] then ""
    else if |words| == 1 then words[0]
    else words[0] + " " + Joined(words[1..])
  }

  lemma JoinedFront(c: char, words: seq<string>)
    requires words != []
    ensures Joined([[c] + words[0]] + words[1..]) == [c] + Joined(words)
  {
    var longer := [[c] + words[0]] + words[1..];
    assert longer[1..] == words[1..] && longer[0] == [c] + words[0];
    if |words| > 1 {
      assert [c] + words[0] + " " + Joined(words[1..]) == [c] + (words[0] + " " + Joined(words[1..]));
    }
  }

  /** Squeezing is taking the words and joining them with one space each. */
  lemma {:induction false} SqueezeJoinsWords(s: string)
    ensures Squeeze(s) == Joined(Words(s))
    ensures Words(s) == [] <==> Squeeze(s) == ""
  {
    if s == "" {
    } else {
      SqueezeJoinsWords(s[1..]);
      var words := Words(s[1..]);
      if !IsSpace(s[0]) && words != [] {
        if IsSpace(s[1]) {
          assert ([[s[0]]] + words)[1..] == words;
          assert [s[0]] + " " + Joined(words) == [s[0], ' '] + Joined(words);
        } else {
          JoinedFront(s[0], words);
        }
      }
    }
  }

  /** The text without its white space. */
  ghost function Letters(s: string): string {
    if s == "" then "" else if IsSpace(s[0]) then Letters(s[1..]) else [s[0]] + Letters(s[1..])
  }

  lemma LettersOfFirst(c: char, rest: string)
    ensures Letters([c] + rest) == if IsSpace(c) then Letters(rest) else [c] + Letters(rest)
  {
    assert ([c] + rest)[1..] == rest;
  }

  lemma SqueezeFirst(s: string)
    requires s != "" && !IsSpace(s[0])
    ensures var rest := Squeeze(s[1..]);
            Squeeze(s) == [s[0]] + if rest != "" && IsSpace(s[1]) then [' '] + rest else rest
  {
    assert [s[0], ' '] + Squeeze(s[1..]) == [s[0]] + ([' '] + Squeeze(s[1..]));
  }

  lemma {:induction false} SqueezeKeepsLetters(s: string)
    ensures Letters(Squeeze(s)) == Letters(s)
  {
    if s == "" {
    } else {
      var rest := Squeeze(s[1..]);
      SqueezeKeepsLetters(s[1..]);
      if !IsSpace(s[0]) {
        var tail := if rest != "" && IsSpace(s[1]) then [' '] + rest else rest;
        SqueezeFirst(s);
        LettersOfFirst(s[0], tail);
        LettersOfFirst(' ', rest);
      }
    }
  }

  /** The name asked for, tidied and cut; nothing left of it means the fallback. */
  function CleanName(raw: Option<string>, fallback: string): (name: string)
    ensures fallback != "" ==> name != ""
    ensures name != fallback ==> |name| <= MAX_NAME_CHARS && forall c :: c in name && IsSpace(c) ==> c == ' '
    ensures raw.None? || (forall c :: c in raw.value ==> IsSpace(c)) ==> name == fallback
    ensures raw.Some? && (exists c :: c in raw.value && !IsSpace(c))
            ==> name <= Squeeze(raw.value) && (name == Squeeze(raw.value) || |name| == MAX_NAME_CHARS)
  {
    var squeezed := Squeeze(if raw.Some? then raw.value else "");
    if squeezed == "" then fallback
    else if |squeezed| > MAX_NAME_CHARS then squeezed[..MAX_NAME_CHARS]
    else squeezed
  }

  // Case folding: character by character, with a table that is left open.

  type Folding = char -> string

  /** The one thing known of the table: hyphen and digits have no case. */
  ghost predicate KeepsDigits(fold: Folding) {
    forall c :: c in "-0123456789" ==> fold(c) == [c]
  }

  function Casefold(s: string, fold: Folding): string {
    if s == "" then "" else fold(s[0]) + Casefold(s[1..], fold)
  }

  lemma {:induction false} CasefoldConcat(a: string, b: string, fold: Folding)
    ensures Casefold(a + b, fold) == Casefold(a, fold) + Casefold(b, fold)
  {
    if a == "" {
      assert a + b == b;
    } else {
      assert (a + b)[1..] == a[1..] + b;
      CasefoldConcat(a[1..], b, fold);
    }
  }

  const DIGITS := "0123456789"

  function Numeral(n: nat): string
    requires n < 100
  {
    if n < 10 then [DIGITS[n]] else [DIGITS[n / 10], DIGITS[n % 10]]
  }

  lemma NumeralsDiffer(m: nat, n: nat)
    requires m < n < 100
    ensures Numeral(m) != Numeral(n)
  {
    assert forall i, j :: 0 <= i < 10 && 0 <= j < 10 && DIGITS[i] == DIGITS[j] ==> i == j;
    if m < 10 <= n {
      assert |Numeral(m)| != |Numeral(n)|;
    } else {
      assert Numeral(m)[|Numeral(m)| - 1] == DIGITS[m % 10] && Numeral(n)[|Numeral(n)| - 1] == DIGITS[n % 10];
      assert Numeral(m)[0] == Numeral(n)[0] ==> m % 10 != n % 10;
    }
  }

  function Candidate(requested: string, suffix: nat): string
    requires suffix < 100
  {
    requested + "-" + Numeral(suffix)
  }

  /** What folding makes of a candidate: the ending is untouched. */
  function FoldedCandidate(requested: string, suffix: nat, fold: Folding): string
    requires suffix < 100
  {
    Casefold(requested, fold) + "-" + Numeral(suffix)
  }

  lemma NumeralKeepsItself(n: nat, fold: Folding)
    requires n < 100 && KeepsDigits(fold)
    ensures Casefold(Numeral(n), fold) == Numeral(n)
  {
    var s := Numeral(n);
    assert forall i :: 0 <= i < 10 ==> DIGITS[i] in "-0123456789";
    assert s[1..] == if n < 10 then "" else [DIGITS[n % 10]];
    if n >= 10 {
      assert s[1..][1..] == "";
      assert Casefold(s[1..], fold) == fold(DIGITS[n % 10]) + "";
    }
  }

  lemma FoldingACandidate(requested: string, suffix: nat, fold: Folding)
    requires suffix < 100 && KeepsDigits(fold)
    ensures Casefold(Candidate(requested, suffix), fold) == FoldedCandidate(requested, suffix, fold)
  {
    CasefoldConcat(requested + "-", Numeral(suffix), fold);
    CasefoldConcat(requested, "-", fold);
    NumeralKeepsItself(suffix, fold);
    assert "-"[1..] == "" && '-' in "-0123456789";
    assert Casefold("-", fold) == "-" + "";
  }

  /** What the asked-for name and the candidates up to `n` fold to. */
  ghost function Attempts(requested: string, n: nat, fold: Folding): set<string>
    requires n <= 100
  {
    if n <= 2 then {Casefold(requested, fold)}
    else Attempts(requested, n - 1, fold) + {FoldedCandidate(requested, n - 1, fold)}
  }

  lemma {:induction false} AttemptsDiffer(requested: string, n: nat, later: nat, fold: Folding)
    requires 2 <= n <= later < 100
    ensures FoldedCandidate(requested, later, fold) !in Attempts(requested, n, fold)
  {
    if n > 2 {
      AttemptsDiffer(requested, n - 1, later, fold);
      NumeralsDiffer(n - 1, later);
      var stem := Casefold(requested, fold) + "-";
      assert (stem + Numeral(n - 1))[|stem|..] == Numeral(n - 1);
      assert (stem + Numeral(later))[|stem|..] == Numeral(later);
    } else {
      assert |FoldedCandidate(requested, later, fold)| > |Casefold(requested, fold)|;
    }
  }

  lemma {:induction false} AttemptsSize(requested: string, n: nat, fold: Folding)
    requires 2 <= n <= 100
    ensures |Attempts(requested, n, fold)| == n - 1
  {
    if n > 2 {
      AttemptsSize(requested, n - 1, fold);
      AttemptsDiffer(requested, n - 1, n - 1, fold);
    }
  }

  /** The names already in use, folded. */
  function Taken(names: seq<string>, fold: Folding): (taken: set<string>)
    ensures forall i :: 0 <= i < |names| ==> Casefold(names[i], fold) in taken
    ensures forall t :: t in taken ==> exists i :: 0 <= i < |names| && t == Casefold(names[i], fold)
  {
    set i | 0 <= i < |names| :: Casefold(names[i], fold)
  }

  lemma {:induction false} TakenSize(names: seq<string>, fold: Folding)
    ensures |Taken(names, fold)| <= |names|
  {
    if names == [] {
    } else {
      var last := |names| - 1;
      TakenSize(names[..last], fold);
      assert Taken(names, fold) == Taken(names[..last], fold) + {Casefold(names[last], fold)};
    }
  }

  predicate Free(name: string, taken: set<string>, fold: Folding) {
    Casefold(name, fold) !in taken
  }

  /** The first candidate from `suffix` on that is free. */
  function FirstFree(requested: string, suffix: nat, taken: set<string>, fold: Folding): (r: Option<nat>)
    requires suffix <= 100
    ensures r.Some? ==> && suffix <= r.value < 100 && Free(Candidate(requested, r.value), taken, fold)
                        && forall k :: suffix <= k < r.value ==> !Free(Candidate(requested, k), taken, fold)
    ensures r.None? ==> forall k :: suffix <= k < 100 ==> !Free(Candidate(requested, k), taken, fold)
    decreases 100 - suffix
  {
    if suffix == 100 then None
    else if Free(Candidate(requested, suffix), taken, fold) then Some(suffix)
    else FirstFree(requested, suffix + 1, taken, fold)
  }

  function UniqueName(requested: string, taken: set<string>, fold: Folding, client: string): string {
    if Free(requested, taken, fold) then requested
    else
      match FirstFree(requested, 2, taken, fold)
      case Some(suffix) => Candidate(requested, suffix)
      case None => requested + "-" + Suffix(client, 4)
  }

  lemma {:induction false} AttemptsTaken(requested: string, n: nat, taken: set<string>, fold: Folding)
    requires KeepsDigits(fold) && 2 <= n <= 100 && !Free(requested, taken, fold)
    requires forall k :: 2 <= k < n ==> !Free(Candidate(requested, k), taken, fold)
    ensures Attempts(requested, n, fold) <= taken
  {
    if n > 2 {
      AttemptsTaken(requested, n - 1, taken, fold);
      assert !Free(Candidate(requested, n - 1), taken, fold);
      FoldingACandidate(requested, n - 1, fold);
    }
  }

  /** The ending made of the client's id is reached only when at least 99 names are in use. */
  lemma FallbackNeeds99(requested: string, taken: set<string>, fold: Folding)
    requires KeepsDigits(fold) && !Free(requested, taken, fold) && FirstFree(requested, 2, taken, fold).None?
    ensures |taken| >= 99
  {
    AttemptsTaken(requested, 100, taken, fold);
    AttemptsSize(requested, 100, fold);
    SubsetSize(Attempts(requested, 100, fold), taken);
  }

  /** Below that the settled name is free, and it is the one asked for exactly when that one is free. */
  lemma UniqueNameIsFree(requested: string, taken: set<string>, fold: Folding, client: string)
    requires KeepsDigits(fold) && |taken| < 99
    ensures Free(UniqueName(requested, taken, fold, client), taken, fold)
    ensures UniqueName(requested, taken, fold, client) == requested <==> Free(requested, taken, fold)
  {
    if !Free(requested, taken, fold) {
      if FirstFree(requested, 2, taken, fold).None? {
        FallbackNeeds99(requested, taken, fold);
      }
    }
  }

  /** Otherwise it is the one asked for with the least number, from two on, that makes it free. */
  lemma UniqueNameIsLeast(requested: string, taken: set<string>, fold: Folding, client: string)
    requires KeepsDigits(fold) && |taken| < 99 && !Free(requested, taken, fold)
    ensures exists n :: && 2 <= n < 100 && UniqueName(requested, taken, fold, client) == Candidate(requested, n)
                        && forall k :: 2 <= k < n ==> !Free(Candidate(requested, k), taken, fold)
  {
    if FirstFree(requested, 2, taken, fold).None? {
      FallbackNeeds99(requested, taken, fold);
    }
    assert 2 <= FirstFree(requested, 2, taken, fold).value < 100;
  }
}
