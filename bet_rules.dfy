/**
 * The pure rules of the `/bet` command: which characters a bet may name, how the choice is
 * stored (sorted, each character once), the payout multiplier for each choice size, and how
 * a block hash decides the bet.
 */
module BetRules {
  import opened Wrappers
  import opened Text

  /** The alphabet of a block hash: the sixteen lower-case hexadecimal digits. */
  const ValidChars: string := "0123456789abcdef"

  /** The characters occurring in `s` (Python's `set(s)`). */
  function CharSet(s: string): set<char> {
    set c | c in s
  }

  /**
   * `contains_all`: every character in `chars` is one of `ValidChars`. Such a set has at most
   * sixteen members, and has sixteen only when it is the whole alphabet.
   */
  predicate ContainsAll(chars: set<char>): (b: bool)
    ensures b ==> |chars| <= 16
    ensures b && |chars| > 15 ==> chars == CharSet(ValidChars)
  {
    ValidCharsCount();
    SubsetCard(chars, CharSet(ValidChars));
    forall c :: c in chars ==> c in ValidChars
  }

  lemma ValidCharsCount()
    ensures |CharSet(ValidChars)| == 16
  {
    assert StrictlySorted(ValidChars);
    SortedLength(ValidChars);
  }

  /** A subset is no larger than its superset, and equals it when it is as large. */
  lemma SubsetCard(a: set<char>, b: set<char>)
    ensures a <= b ==> |a| <= |b| && (|a| >= |b| ==> a == b)
  {
    if a <= b {
      assert a * b == a;
      assert |b - a| == |b| - |a|;
      if |a| >= |b| {
        assert b - a == {};
      }
    }
  }

  /** Sorted by code point with no character repeated. */
  predicate StrictlySorted(s: string) {
    forall i, j :: 0 <= i < j < |s| ==> s[i] < s[j]
  }

  /** Places `c` into a strictly sorted string, unless it is already there. */
  function Insert(c: char, s: string): (r: string)
    requires StrictlySorted(s)
    ensures StrictlySorted(r)
    ensures CharSet(r) == CharSet(s) + {c}
  {
    if s == [] then [c]
    else if c < s[0] then SortedCons(c, s); [c] + s
    else if c == s[0] then s
    else
      var rest := Insert(c, s[1..]);
      InsertBehind(c, s, rest);
      [s[0]] + rest
  }

  /** The recursive case of Insert: `c` goes behind the first character. */
  lemma InsertBehind(c: char, s: string, rest: string)
    requires StrictlySorted(s) && s != [] && s[0] < c
    requires StrictlySorted(rest) && CharSet(rest) == CharSet(s[1..]) + {c}
    ensures StrictlySorted([s[0]] + rest)
    ensures CharSet([s[0]] + rest) == CharSet(s) + {c}
  {
    assert CharSet(s) == {s[0]} + CharSet(s[1..]) by { assert s == [s[0]] + s[1..]; }
    forall k | 0 <= k < |rest| ensures s[0] < rest[k] {
      assert rest[k] in CharSet(rest);
    }
    SortedCons(s[0], rest);
  }

  /** A character below every character of a strictly sorted string may lead it. */
  lemma SortedCons(x: char, t: string)
    requires StrictlySorted(t)
    requires forall k :: 0 <= k < |t| ==> x < t[k]
    ensures StrictlySorted([x] + t)
    ensures CharSet([x] + t) == {x} + CharSet(t)
  {
  }

  /** `"".join(sorted(set(s)))`: the characters of `s`, sorted, each once. */
  function Normalize(s: string): (r: string)
    ensures StrictlySorted(r)
    ensures CharSet(r) == CharSet(s)
  {
    if s == [] then []
    else
      assert CharSet(s) == {s[0]} + CharSet(s[1..]) by { assert s == [s[0]] + s[1..]; }
      Insert(s[0], Normalize(s[1..]))
  }

  /** A strictly sorted string holds as many characters as it has distinct ones. */
  lemma {:induction false} SortedLength(s: string)
    requires StrictlySorted(s)
    ensures |CharSet(s)| == |s|
  {
    if s != [] {
      assert CharSet(s) == {s[0]} + CharSet(s[1..]) by { assert s == [s[0]] + s[1..]; }
      assert s[0] !in CharSet(s[1..]);
      SortedLength(s[1..]);
    }
  }

  /** There is only one strictly sorted string over a given set of characters. */
  lemma {:induction false} SortedUnique(a: string, b: string)
    requires StrictlySorted(a) && StrictlySorted(b)
    requires CharSet(a) == CharSet(b)
    ensures a == b
  {
    SortedLength(a);
    SortedLength(b);
    if a != [] {
      assert a[0] == b[0] by {
        assert a[0] in CharSet(b) && b[0] in CharSet(a);
      }
      assert CharSet(a[1..]) == CharSet(a) - {a[0]} by {
        assert a == [a[0]] + a[1..];
        assert forall k :: 0 < k < |a| ==> a[k] != a[0];
      }
      assert CharSet(b[1..]) == CharSet(b) - {b[0]} by {
        assert b == [b[0]] + b[1..];
        assert forall k :: 0 < k < |b| ==> b[k] != b[0];
      }
      SortedUnique(a[1..], b[1..]);
      assert a == [a[0]] + a[1..] && b == [b[0]] + b[1..];
    }
  }

  /** The stored choice is THE sorted, duplicate-free spelling of the characters bet on. */
  lemma NormalizeCanonical(s: string, t: string)
    requires StrictlySorted(t) && CharSet(t) == CharSet(s)
    ensures Normalize(s) == t
  {
    SortedUnique(Normalize(s), t);
  }

  lemma NormalizeLength(s: string)
    ensures |Normalize(s)| == |CharSet(s)|
  {
    SortedLength(Normalize(s));
  }

  lemma NormalizeIdempotent(s: string)
    ensures Normalize(Normalize(s)) == Normalize(s)
  {
    NormalizeCanonical(Normalize(s), Normalize(s));
  }

  /** The leverage table in hundredths (15.2 is 1520), for 1 to 15 characters. */
  const LeverageTable: seq<nat> :=
    [1520, 760, 506, 380, 304, 253, 217, 190, 168, 152, 138, 126, 116, 108, 101]

  /**
   * `LEVERAGE[k]`: defined exactly for k in 1..15. The payout multiplier exceeds 1, and the
   * expected payout k/16 * LEVERAGE[k] of a bet on k characters is at most the stake.
   */
  function Leverage(k: int): (r: Option<nat>)
    ensures r.Some? <==> 1 <= k <= 15
    ensures r.Some? ==> r.value > 100 && k * r.value <= 1600
  {
    if 1 <= k <= 15 then Some(LeverageTable[k - 1]) else None
  }

  /** Fewer characters, higher multiplier: the table is strictly decreasing. */
  lemma {:induction false} LeverageDecreasing(j: int, k: int)
    requires 1 <= j < k <= 15
    ensures Leverage(j).value > Leverage(k).value
  {
    if j + 1 < k {
      LeverageDecreasing(j, k - 1);
      assert Leverage(k - 1).value > Leverage(k).value by {
        assert LeverageTable[k - 2] > LeverageTable[k - 1];
      }
    } else {
      assert LeverageTable[j - 1] > LeverageTable[k - 1];
    }
  }

  /** A choice as the probe receives it: sorted, distinct, valid characters, 1 to 15 of them. */
  predicate ValidChoice(choice: string) {
    StrictlySorted(choice) && ContainsAll(CharSet(choice)) && 1 <= |choice| <= 15
  }

  /** What `execute` makes of its arguments, up to the point where the probe is armed. */
  datatype BetRequest =
    | Usage            // not exactly one argument
    | InvalidChars     // a character outside ValidChars
    | TooManyChars     // all sixteen characters named
    | EmptyChoice      // no character at all: `LEVERAGE[0]` raises after the wallet is saved
    | Accepted(choice: string, leverage: nat)

  function ValidateArgs(args: seq<string>): (r: BetRequest)
    ensures r.Accepted? <==>
      |args| == 1 && ContainsAll(CharSet(args[0])) && 1 <= |CharSet(args[0])| <= 15
    ensures r.TooManyChars? <==> |args| == 1 && CharSet(args[0]) == CharSet(ValidChars)
    ensures r.Accepted? ==>
      ValidChoice(r.choice) && CharSet(r.choice) == CharSet(args[0]) &&
      Leverage(|r.choice|) == Some(r.leverage)
  {
    if |args| != 1 then Usage
    else
      var chars := CharSet(args[0]);
      if !ContainsAll(chars) then InvalidChars
      else if |chars| > 15 then TooManyChars
      else
        NormalizeLength(args[0]);
        ValidCharsCount();
        match Leverage(|chars|)
        case None => EmptyChoice
        case Some(l) => Accepted(Normalize(args[0]), l)
  }

  /** `block_hash[-1:]`: the suffix of at most one character, empty only for an empty hash. */
  function LastChar(hash: string): (r: string)
    ensures |r| == (if hash == [] then 0 else 1)
    ensures r == hash[|hash| - |r|..]
  {
    if hash == [] then "" else [hash[|hash| - 1]]
  }

  /**
   * `last_char in choice`, a substring test: the bet is won iff the hash ends in a chosen
   * character, and an empty hash counts as a win.
   */
  predicate BetWon(hash: string, choice: string): (b: bool)
    ensures b <==> hash == [] || hash[|hash| - 1] in choice
  {
    ContainsSingle(choice, LastChar(hash));
    Contains(choice, LastChar(hash))
  }

  /** `int(balance * leverage)` with the leverage in hundredths: the product, rounded down to whole sun. */
  function Winnings(balanceSun: nat, leverage: nat): (r: nat)
    ensures r * 100 <= balanceSun * leverage < (r + 1) * 100
  {
    balanceSun * leverage / 100
  }

  /** The hash endings that win a bet on `choice`. */
  function WinningDigits(choice: string): set<char> {
    set c | c in ValidChars && BetWon([c], choice)
  }

  /**
   * Of the sixteen possible last characters of a hash, exactly |choice| win, and the
   * winnings summed over them do not exceed sixteen stakes: the house edge is non-negative.
   */
  lemma HouseEdge(choice: string, balanceSun: nat)
    requires ValidChoice(choice)
    ensures |WinningDigits(choice)| == |choice|
    ensures |choice| * Winnings(balanceSun, Leverage(|choice|).value) <= 16 * balanceSun
  {
    forall c | c in ValidChars ensures BetWon([c], choice) <==> c in choice {
      assert [c][|[c]| - 1] == c;
    }
    assert WinningDigits(choice) == CharSet(choice);
    SortedLength(choice);
    ExpectedPayoutAtMostStake(|choice|, Leverage(|choice|).value, balanceSun);
  }

  lemma ExpectedPayoutAtMostStake(k: nat, l: nat, b: nat)
    requires k * l <= 1600
    ensures k * Winnings(b, l) <= 16 * b
  {
    var w := Winnings(b, l);
    assert w * 100 <= b * l;
    assert k * (w * 100) <= k * (b * l);
    assert k * (b * l) == b * (k * l);
    assert b * (k * l) <= b * 1600;
  }
}
