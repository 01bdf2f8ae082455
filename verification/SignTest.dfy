/**
 The exact two-sided sign test over discordant pairs: how likely a split at least this lopsided is
 when each pair is as likely to fall either way.
 */
module SignTest {
  import opened Common

  function Pow2(n: nat): (r: nat)
    ensures r > 0
  {
    if n == 0 then 1 else 2 * Pow2(n - 1)
  }

  /** Binomial coefficients by Pascal's rule. */
  function Choose(n: nat, k: nat): nat {
    if k == 0 then 1
    else if n == 0 then 0
    else Choose(n - 1, k - 1) + Choose(n - 1, k)
  }

  /** The coefficients of one row from `lo` up to but not including `hi`. */
  function Sum(n: nat, lo: nat, hi: nat): nat
    requires lo <= hi
  {
    if lo == hi then 0 else Sum(n, lo, hi - 1) + Choose(n, hi - 1)
  }

  function Min(a: nat, b: nat): nat {
    if a <= b then a else b
  }

  /** None when no pair is discordant. */
  function PairedP(wins: nat, losses: nat): Option<real> {
    var discordant := wins + losses;
    if discordant == 0 then None
    else
      var tail := Sum(discordant, 0, Min(wins, losses) + 1);
      var twoSided := 2.0 * tail as real / Pow2(discordant) as real;
      Some(if twoSided < 1.0 then twoSided else 1.0)
  }

  // ------------------------------------------------------------------ binomials

  function Factorial(n: nat): (r: nat)
    ensures r > 0
  {
    if n == 0 then 1 else n * Factorial(n - 1)
  }

  lemma {:induction false} ChooseBeyond(n: nat, k: nat)
    requires k > n
    ensures Choose(n, k) == 0
  {
    if n > 0 {
      ChooseBeyond(n - 1, k - 1);
      ChooseBeyond(n - 1, k);
    }
  }

  lemma {:induction false} ChooseAll(n: nat)
    ensures Choose(n, n) == 1
  {
    if n > 0 {
      ChooseAll(n - 1);
      ChooseBeyond(n - 1, n);
    }
  }

  lemma {:induction false} ChoosePositive(n: nat, k: nat)
    requires k <= n
    ensures Choose(n, k) > 0
  {
    if 0 < k {
      ChoosePositive(n - 1, k - 1);
    }
  }

  lemma {:induction false} ChooseIsSymmetric(n: nat, k: nat)
    requires k <= n
    ensures Choose(n, k) == Choose(n, n - k)
  {
    if k == 0 || k == n {
      ChooseAll(n);
    } else {
      ChooseIsSymmetric(n - 1, k - 1);
      ChooseIsSymmetric(n - 1, k);
    }
  }

  /** Pascal's rule gives n! / (k! (n - k)!), with no remainder. */
  lemma {:induction false} ChooseIsFactorials(n: nat, k: nat)
    requires k <= n
    ensures Choose(n, k) * (Factorial(k) * Factorial(n - k)) == Factorial(n)
  {
    if k == n {
      ChooseAll(n);
    } else if k > 0 {
      ChooseIsFactorials(n - 1, k - 1);
      ChooseIsFactorials(n - 1, k);
      AddFactorials(Choose(n - 1, k - 1), Choose(n - 1, k), Factorial(k - 1), Factorial(n - k - 1), k, n,
          Factorial(n - 1));
    }
  }

  lemma AddFactorials(left: nat, right: nat, a: nat, b: nat, k: nat, n: nat, f: nat)
    requires 0 < k < n
    requires left * (a * ((n - k) * b)) == f && right * ((k * a) * b) == f
    ensures (left + right) * ((k * a) * ((n - k) * b)) == n * f
  {
    calc {
      (left + right) * ((k * a) * ((n - k) * b));
      left * ((k * a) * ((n - k) * b)) + right * ((k * a) * ((n - k) * b));
      { assert left * ((k * a) * ((n - k) * b)) == k * (left * (a * ((n - k) * b))); }
      k * f + right * ((k * a) * ((n - k) * b));
      { assert right * ((k * a) * ((n - k) * b)) == (n - k) * (right * ((k * a) * b)); }
      k * f + (n - k) * f;
      n * f;
    }
  }

  // ------------------------------------------------------------------ every way the pairs could fall

  /** How many of these pairs went to the challenger. */
  function Wins(split: seq<bool>): (r: nat)
    ensures r <= |split|
  {
    if split == [] then 0 else (if split[0] then 1 else 0) + Wins(split[1..])
  }

  function With(first: bool, splits: set<seq<bool>>): set<seq<bool>> {
    set s | s in splits :: [first] + s
  }

  /** Every way `n` pairs can fall. */
  function AllSplits(n: nat): set<seq<bool>> {
    if n == 0 then {[]} else With(true, AllSplits(n - 1)) + With(false, AllSplits(n - 1))
  }

  lemma InWith(first: bool, splits: set<seq<bool>>, s: seq<bool>)
    ensures s in With(first, splits) <==> s != [] && s[0] == first && s[1..] in splits
  {
    if s != [] && s[0] == first {
      assert s == [first] + s[1..];
    }
    forall t | t in splits && s == [first] + t ensures t == s[1..] {
      assert ([first] + t)[1..] == t;
    }
  }

  lemma FirstTellsApart(won: set<seq<bool>>, lost: set<seq<bool>>)
    ensures With(true, won) !! With(false, lost)
  {
    forall s ensures !(s in With(true, won) && s in With(false, lost)) {
      InWith(true, won, s);
      InWith(false, lost, s);
    }
  }

  lemma {:induction false} AllSplitsHolds(n: nat, s: seq<bool>)
    ensures s in AllSplits(n) <==> |s| == n
  {
    if n > 0 {
      InWith(true, AllSplits(n - 1), s);
      InWith(false, AllSplits(n - 1), s);
      if s != [] {
        AllSplitsHolds(n - 1, s[1..]);
      }
    }
  }

  lemma {:induction false} WithCounts(first: bool, splits: set<seq<bool>>)
    ensures |With(first, splits)| == |splits|
    decreases |splits|
  {
    if splits == {} {
      assert With(first, splits) == {};
    } else {
      var s :| s in splits;
      WithCounts(first, splits - {s});
      forall t | t in splits && [first] + t == [first] + s ensures t == s {
        assert ([first] + t)[1..] == t && ([first] + s)[1..] == s;
      }
      assert [first] + s !in With(first, splits - {s});
      assert With(first, splits) == With(first, splits - {s}) + {[first] + s};
    }
  }

  /** The ways that give the challenger from `lo` up to but not including `hi` pairs. */
  function Band(n: nat, lo: nat, hi: nat): set<seq<bool>> {
    set s | s in AllSplits(n) && lo <= Wins(s) < hi
  }

  /** A band over one more pair is what each way that pair can fall leaves of it. */
  lemma BandDivides(n: nat, lo: nat, hi: nat)
    requires n > 0 && 0 < lo <= hi
    ensures Band(n, lo, hi) == With(true, Band(n - 1, lo - 1, hi - 1)) + With(false, Band(n - 1, lo, hi))
    ensures With(true, Band(n - 1, lo - 1, hi - 1)) !! With(false, Band(n - 1, lo, hi))
  {
    forall s ensures s in Band(n, lo, hi) <==>
        s in With(true, Band(n - 1, lo - 1, hi - 1)) + With(false, Band(n - 1, lo, hi)) {
      AllSplitsHolds(n, s);
      InWith(true, Band(n - 1, lo - 1, hi - 1), s);
      InWith(false, Band(n - 1, lo, hi), s);
      if s != [] {
        AllSplitsHolds(n - 1, s[1..]);
      }
    }
    FirstTellsApart(Band(n - 1, lo - 1, hi - 1), Band(n - 1, lo, hi));
  }

  lemma BandOfNone(n: nat)
    requires n > 0
    ensures Band(n, 0, 1) == With(false, Band(n - 1, 0, 1))
  {
    forall s ensures s in Band(n, 0, 1) <==> s in With(false, Band(n - 1, 0, 1)) {
      AllSplitsHolds(n, s);
      InWith(false, Band(n - 1, 0, 1), s);
      if s != [] {
        AllSplitsHolds(n - 1, s[1..]);
      }
    }
  }

  lemma BandGrows(n: nat, k: nat)
    requires n > 0
    ensures |Band(n, k, k + 1)| == |Band(n - 1, k, k + 1)| + if k == 0 then 0 else |Band(n - 1, k - 1, k)|
  {
    hide Band, With, AllSplits;
    WithCounts(false, Band(n - 1, k, k + 1));
    if k == 0 {
      BandOfNone(n);
    } else {
      BandDivides(n, k, k + 1);
      WithCounts(true, Band(n - 1, k - 1, k));
    }
  }

  lemma NoPairs(k: nat)
    ensures |Band(0, k, k + 1)| == Choose(0, k)
  {
    if k == 0 {
      assert Band(0, k, k + 1) == {[]};
    } else {
      assert Band(0, k, k + 1) == {};
    }
  }

  /** Pascal's rule counts the ways the challenger wins exactly `k` pairs. */
  lemma {:induction false} ExactlyCounts(n: nat, k: nat)
    ensures |Band(n, k, k + 1)| == Choose(n, k)
  {
    if n == 0 {
      NoPairs(k);
    } else {
      BandGrows(n, k);
      ExactlyCounts(n - 1, k);
      if k > 0 {
        ExactlyCounts(n - 1, k - 1);
      }
    }
  }

  lemma {:induction false} BandCounts(n: nat, lo: nat, hi: nat)
    requires lo <= hi
    ensures |Band(n, lo, hi)| == Sum(n, lo, hi)
  {
    if lo == hi {
      assert Band(n, lo, hi) == {};
    } else {
      BandCounts(n, lo, hi - 1);
      ExactlyCounts(n, hi - 1);
      assert Band(n, lo, hi) == Band(n, lo, hi - 1) + Band(n, hi - 1, hi);
      assert Band(n, lo, hi - 1) !! Band(n, hi - 1, hi);
    }
  }

  lemma {:induction false} AllSplitsCount(n: nat)
    ensures |AllSplits(n)| == Pow2(n)
  {
    if n > 0 {
      AllSplitsCount(n - 1);
      var rest := AllSplits(n - 1);
      WithCounts(true, rest);
      WithCounts(false, rest);
      FirstTellsApart(rest, rest);
    }
  }

  // ------------------------------------------------------------------ the tail

  lemma {:induction false} SumJoins(n: nat, lo: nat, mid: nat, hi: nat)
    requires lo <= mid <= hi
    ensures Sum(n, lo, hi) == Sum(n, lo, mid) + Sum(n, mid, hi)
    decreases hi
  {
    if mid < hi {
      SumJoins(n, lo, mid, hi - 1);
    }
  }

  lemma SumFirst(n: nat, lo: nat, hi: nat)
    requires lo < hi
    ensures Sum(n, lo, hi) == Choose(n, lo) + Sum(n, lo + 1, hi)
  {
    SumJoins(n, lo, lo + 1, hi);
    assert Sum(n, lo, lo + 1) == Choose(n, lo);
  }

  /** The row is symmetric, so the upper tail is the lower one. */
  lemma {:induction false} TailsAgree(n: nat, k: nat)
    requires k <= n + 1
    ensures Sum(n, n + 1 - k, n + 1) == Sum(n, 0, k)
  {
    if k > 0 {
      TailsAgree(n, k - 1);
      SumFirst(n, n + 1 - k, n + 1);
      ChooseIsSymmetric(n, k - 1);
    }
  }

  lemma RowSum(n: nat)
    ensures Sum(n, 0, n + 1) == Pow2(n)
  {
    BandCounts(n, 0, n + 1);
    AllSplitsCount(n);
    assert Band(n, 0, n + 1) == AllSplits(n) by {
      forall s | s in AllSplits(n) ensures Wins(s) < n + 1 {
        AllSplitsHolds(n, s);
      }
    }
  }

  /** Two tails and what lies between them are the whole row. */
  lemma TailsAndMiddle(n: nat, e: nat)
    requires 2 * e < n
    ensures 2 * Sum(n, 0, e + 1) + Sum(n, e + 1, n - e) == Pow2(n)
  {
    SumJoins(n, 0, e + 1, n + 1);
    SumJoins(n, e + 1, n - e, n + 1);
    TailsAgree(n, e + 1);
    RowSum(n);
  }

  /** On an exact tie the two tails overlap in the middle coefficient. */
  lemma TieOverlaps(n: nat, e: nat)
    requires 2 * e == n
    ensures 2 * Sum(n, 0, e + 1) == Pow2(n) + Choose(n, e)
  {
    SumJoins(n, 0, e + 1, n + 1);
    TailsAgree(n, e);
    RowSum(n);
    assert Sum(n, 0, e + 1) == Sum(n, 0, e) + Choose(n, e);
  }

  lemma {:induction false} SumPositive(n: nat, lo: nat, hi: nat)
    requires lo < hi <= n + 1
    ensures Sum(n, lo, hi) > 0
  {
    ChoosePositive(n, hi - 1);
  }

  // ------------------------------------------------------------------ what p is

  /** One side got no more than `extreme` of the pairs. */
  predicate Lopsided(split: seq<bool>, extreme: nat) {
    Wins(split) <= extreme || |split| - Wins(split) <= extreme
  }

  function LopsidedSplits(n: nat, extreme: nat): set<seq<bool>> {
    set s | s in AllSplits(n) && Lopsided(s, extreme)
  }

  lemma LopsidedIsTwoBands(n: nat, e: nat)
    requires 2 * e < n
    ensures LopsidedSplits(n, e) == Band(n, 0, e + 1) + Band(n, n - e, n + 1)
    ensures Band(n, 0, e + 1) !! Band(n, n - e, n + 1)
  {
    forall s | s in AllSplits(n) ensures Lopsided(s, e) <==> s in Band(n, 0, e + 1) + Band(n, n - e, n + 1) {
      AllSplitsHolds(n, s);
    }
  }

  lemma EverySplitIsLopsided(n: nat, e: nat)
    requires 2 * e == n
    ensures LopsidedSplits(n, e) == AllSplits(n)
  {
    forall s | s in AllSplits(n) ensures Lopsided(s, e) {
      AllSplitsHolds(n, s);
    }
  }

  lemma LopsidedCounts(n: nat, e: nat)
    requires 2 * e <= n
    ensures |LopsidedSplits(n, e)| == if 2 * e == n then Pow2(n) else 2 * Sum(n, 0, e + 1)
  {
    hide Lopsided, Sum, Pow2, Band, AllSplits, LopsidedSplits;
    if 2 * e == n {
      AllSplitsCount(n);
      EverySplitIsLopsided(n, e);
    } else {
      LopsidedIsTwoBands(n, e);
      BandCounts(n, 0, e + 1);
      BandCounts(n, n - e, n + 1);
      TailsAgree(n, e + 1);
    }
  }

  /** The value is the share, of all the ways the pairs could fall, of those at least as lopsided. */
  lemma PIsAShare(wins: nat, losses: nat)
    requires wins + losses > 0
    ensures |AllSplits(wins + losses)| > 0
    ensures PairedP(wins, losses)
            == Some(|LopsidedSplits(wins + losses, Min(wins, losses))| as real / |AllSplits(wins + losses)| as real)
  {
    var n, e := wins + losses, Min(wins, losses);
    LopsidedCounts(n, e);
    AllSplitsCount(n);
    AtMostOne(2 * Sum(n, 0, e + 1), Pow2(n));
    AtMostOne(Pow2(n), Pow2(n));
    if wins == losses {
      TieOverlaps(n, e);
    } else {
      TailsAndMiddle(n, e);
      if 2 * Sum(n, 0, e + 1) == Pow2(n) {
        AtMostOne(2 * Sum(n, 0, e + 1), Pow2(n));
      }
    }
  }

  lemma AtMostOne(a: nat, b: nat)
    requires b > 0
    ensures a as real / b as real < 1.0 <==> a < b
    ensures a == b ==> a as real / b as real == 1.0
    ensures a > 0 ==> a as real / b as real > 0.0
  {
    var q := a as real / b as real;
    assert q * b as real == a as real;
  }

  lemma OrderIsKept(a: nat, b: nat, c: nat)
    requires c > 0
    ensures a < b <==> a as real / c as real < b as real / c as real
  {
    var p, q := a as real / c as real, b as real / c as real;
    assert p * c as real == a as real && q * c as real == b as real;
  }

  lemma PIsSymmetric(wins: nat, losses: nat)
    ensures PairedP(wins, losses) == PairedP(losses, wins)
  {
    assert wins + losses == losses + wins;
  }

  /** With no pair that tells the two apart there is no value at all. */
  lemma NoDiscordNoP(wins: nat, losses: nat)
    ensures PairedP(wins, losses) == None <==> wins == 0 && losses == 0
  {
    if wins + losses > 0 {
      PIsAShare(wins, losses);
    }
  }

  /**
   It is a probability: positive, at most one, and one exactly when the split is as even as the number of
   pairs allows.
   */
  lemma PIsAProbability(wins: nat, losses: nat)
    requires wins + losses > 0
    ensures PairedP(wins, losses).Some? && 0.0 < PairedP(wins, losses).value <= 1.0
    ensures PairedP(wins, losses).value == 1.0 <==> -1 <= wins - losses <= 1
  {
    var n, e := wins + losses, Min(wins, losses);
    SumPositive(n, 0, e + 1);
    AtMostOne(2 * Sum(n, 0, e + 1), Pow2(n));
    if wins == losses {
      TieOverlaps(n, e);
    } else {
      TailsAndMiddle(n, e);
      if e + 1 < n - e {
        SumPositive(n, e + 1, n - e);
      }
    }
  }

  /** The clamp changes the value exactly on a tie. */
  lemma ClampOnlyOnATie(wins: nat, losses: nat)
    requires wins + losses > 0
    ensures var n := wins + losses;
            PairedP(wins, losses).value != 2.0 * Sum(n, 0, Min(wins, losses) + 1) as real / Pow2(n) as real <==>
                wins == losses
  {
    var n, e := wins + losses, Min(wins, losses);
    AtMostOne(2 * Sum(n, 0, e + 1), Pow2(n));
    if wins == losses {
      TieOverlaps(n, e);
      ChoosePositive(n, e);
      OrderIsKept(Pow2(n), 2 * Sum(n, 0, e + 1), Pow2(n));
    } else {
      TailsAndMiddle(n, e);
    }
  }

  /** Of two splits of the same pairs, the more lopsided has the strictly smaller value. */
  lemma MoreLopsidedIsSmaller(wins: nat, losses: nat, wins': nat, losses': nat)
    requires wins + losses == wins' + losses' > 0
    requires Min(wins, losses) < Min(wins', losses')
    ensures PairedP(wins, losses).value < PairedP(wins', losses').value
  {
    var n, e, e' := wins + losses, Min(wins, losses), Min(wins', losses');
    SumJoins(n, 0, e + 1, e' + 1);
    SumPositive(n, e + 1, e' + 1);
    PIsAProbability(wins, losses);
    ClampOnlyOnATie(wins, losses);
    if wins' == losses' {
      PIsAProbability(wins', losses');
    } else {
      ClampOnlyOnATie(wins', losses');
      OrderIsKept(2 * Sum(n, 0, e + 1), 2 * Sum(n, 0, e' + 1), Pow2(n));
    }
  }
}
