/** The leaderboard logic of src/score_management.py: a list of at most ten
    entries kept in non-increasing score order, the rank a score would take,
    the mm:ss rendering of a survival time and the points of each monster
    kind. The leaderboard lives in memory; the file it is saved to is not
    part of this model. */
module Scores {
  import opened Common
  import opened Kinds
  import opened Motion

  /** One leaderboard row; the date stamp is left out. */
  datatype Entry = Entry(playerName: string, score: int, survivedTime: real, wavesCompleted: int)

  /** The number of rows the leaderboard keeps. */
  const CAPACITY: nat := 10

  // ---------------------------------------------------------------------
  // Ordering
  // ---------------------------------------------------------------------

  /** Non-increasing by score. */
  predicate Sorted(b: seq<Entry>)
  {
    forall i, j :: 0 <= i < j < |b| ==> b[i].score >= b[j].score
  }

  /** Where a new score goes: before the first entry with a strictly lower
      score, so after every entry that ties with it. */
  function Slot(b: seq<Entry>, s: int): (k: nat)
    ensures k <= |b|
    ensures forall i :: 0 <= i < k ==> b[i].score >= s
    ensures k < |b| ==> b[k].score < s
    decreases |b|
  {
    if |b| == 0 || b[0].score < s then 0 else 1 + Slot(b[1..], s)
  }

  function Insert(b: seq<Entry>, e: Entry): seq<Entry>
  {
    var k := Slot(b, e.score);
    b[..k] + [e] + b[k..]
  }

  /** Python's stable sort by score with `reverse=True`, as an insertion
      sort from the left: each entry goes after the earlier entries that
      tie with it, so equal scores keep their order. */
  function SortDesc(s: seq<Entry>): seq<Entry>
    decreases |s|
  {
    if |s| == 0 then [] else Insert(SortDesc(s[..|s| - 1]), s[|s| - 1])
  }

  function Cap(b: seq<Entry>): (r: seq<Entry>)
  {
    if |b| > CAPACITY then b[..CAPACITY] else b
  }

  /** Inserting keeps the entries, adds the new one, and keeps a sorted
      board sorted. */
  lemma InsertSpec(b: seq<Entry>, e: Entry)
    ensures |Insert(b, e)| == |b| + 1
    ensures multiset(Insert(b, e)) == multiset(b) + multiset{e}
    ensures Sorted(b) ==> Sorted(Insert(b, e))
  {
    var k := Slot(b, e.score);
    assert b == b[..k] + b[k..];
    if Sorted(b) {
      InsertSorted(b, e);
    }
  }

  lemma InsertSorted(b: seq<Entry>, e: Entry)
    requires Sorted(b)
    ensures Sorted(Insert(b, e))
  {
    var k := Slot(b, e.score);
    var r := Insert(b, e);
    assert forall i :: 0 <= i < k ==> r[i] == b[i];
    assert r[k] == e;
    assert forall i :: k < i < |r| ==> r[i] == b[i - 1];
    forall i, j | 0 <= i < j < |r|
      ensures r[i].score >= r[j].score
    {
      if j <= k {
      } else if i < k {
        assert b[i].score >= b[j - 1].score;
      } else if i == k {
        assert b[k].score >= b[j - 1].score;
      } else {
        assert b[i - 1].score >= b[j - 1].score;
      }
    }
  }

  /** The sort returns a sorted permutation of its input. */
  lemma {:induction false} SortDescSpec(s: seq<Entry>)
    ensures Sorted(SortDesc(s))
    ensures multiset(SortDesc(s)) == multiset(s)
    ensures |SortDesc(s)| == |s|
    decreases |s|
  {
    if |s| > 0 {
      var n := |s| - 1;
      SortDescSpec(s[..n]);
      InsertSpec(SortDesc(s[..n]), s[n]);
      assert s == s[..n] + [s[n]];
    }
  }

  /** A sorted list is left as it is. */
  lemma {:induction false} SortDescSorted(s: seq<Entry>)
    requires Sorted(s)
    ensures SortDesc(s) == s
    decreases |s|
  {
    if |s| > 0 {
      var n := |s| - 1;
      assert Sorted(s[..n]);
      SortDescSorted(s[..n]);
      assert s[..n] + [s[n]] == s;
    }
  }

  /** What `add_score` leaves on a board: sorted, the old entries and the
      new one sorted by score and cut to ten. */
  function AddedTo(b: seq<Entry>, e: Entry): seq<Entry>
  {
    Cap(SortDesc(b + [e]))
  }

  /** After `add_score` the board is sorted and holds `min(len + 1, 10)`
      entries, all from the old board or the new one, and every entry the
      cut drops scores no more than any entry kept. */
  lemma AddedToSpec(b: seq<Entry>, e: Entry)
    ensures Sorted(AddedTo(b, e))
    ensures |AddedTo(b, e)| == MinNat(|b| + 1, CAPACITY)
    ensures multiset(AddedTo(b, e)) <= multiset(b) + multiset{e}
    ensures forall x, y :: x in multiset(b) + multiset{e} - multiset(AddedTo(b, e)) && y in AddedTo(b, e) ==>
      x.score <= y.score
  {
    var s := SortDesc(b + [e]);
    SortDescSpec(b + [e]);
    CapSpec(s);
    CapDropsLowest(s);
  }

  /** Cutting to ten keeps a prefix: sorted stays sorted, and no entry is
      added. */
  lemma CapSpec(s: seq<Entry>)
    ensures |Cap(s)| == MinNat(|s|, CAPACITY)
    ensures Sorted(s) ==> Sorted(Cap(s))
    ensures multiset(Cap(s)) <= multiset(s)
  {
    if |s| > CAPACITY {
      assert s == s[..CAPACITY] + s[CAPACITY..];
    }
  }

  /** Cutting a sorted list to ten drops no entry scoring more than one
      kept. */
  lemma CapDropsLowest(s: seq<Entry>)
    requires Sorted(s)
    ensures forall x, y :: x in multiset(s) - multiset(Cap(s)) && y in Cap(s) ==> x.score <= y.score
  {
    if |s| > CAPACITY {
      var kept, dropped := s[..CAPACITY], s[CAPACITY..];
      assert s == kept + dropped;
      assert multiset(s) - multiset(kept) == multiset(dropped);
      forall x: Entry, y: Entry | x in multiset(dropped) && y in kept
        ensures x.score <= y.score
      {
        var j :| 0 <= j < |dropped| && dropped[j] == x;
        var i :| 0 <= i < |kept| && kept[i] == y;
        assert s[i] == y && s[CAPACITY + j] == x;
      }
    }
  }

  /** On a sorted board the new entry goes after every entry with the same
      score. */
  lemma AddedToSorted(b: seq<Entry>, e: Entry)
    requires Sorted(b)
    ensures AddedTo(b, e) == Cap(Insert(b, e))
  {
    SortDescSorted(b);
    assert (b + [e])[..|b|] == b;
  }

  // ---------------------------------------------------------------------
  // Rank
  // ---------------------------------------------------------------------

  /** Entries that beat `s` strictly. */
  function CountAbove(b: seq<Entry>, s: int): (n: nat)
    ensures n <= |b|
    decreases |b|
  {
    if |b| == 0 then 0
    else CountAbove(b[..|b| - 1], s) + (if s < b[|b| - 1].score then 1 else 0)
  }

  /** Entries that tie with `s`. */
  function CountTies(b: seq<Entry>, s: int): (n: nat)
    decreases |b|
  {
    if |b| == 0 then 0
    else CountTies(b[..|b| - 1], s) + (if b[|b| - 1].score == s then 1 else 0)
  }

  /** `get_current_player_rank`: one plus the entries that beat the score,
      while the board has room; on a full board, only a score beating the
      last entry has a rank. */
  function Rank(b: seq<Entry>, s: int): Option<nat>
  {
    if |b| < CAPACITY || s > b[|b| - 1].score then Some(1 + CountAbove(b, s)) else None
  }

  /** A rank lies between 1 and one past the board. */
  lemma RankBounds(b: seq<Entry>, s: int)
    ensures Rank(b, s).Some? ==> 1 <= Rank(b, s).value <= |b| + 1
    ensures |b| < CAPACITY ==> Rank(b, s).Some?
  {
  }

  /** On a sorted board the new score's place is after the entries that
      beat it and the ones that tie with it: the rank reported is its place
      less the ties. */
  lemma {:induction false} SlotCounts(b: seq<Entry>, s: int)
    requires Sorted(b)
    ensures Slot(b, s) == CountAbove(b, s) + CountTies(b, s)
    decreases |b|
  {
    if |b| > 0 {
      var n := |b| - 1;
      assert Sorted(b[..n]);
      SlotCounts(b[..n], s);
      var k := Slot(b[..n], s);
      if b[n].score >= s {
        assert Slot(b, s) == n + 1 by {
          assert forall i :: 0 <= i < n + 1 ==> b[i].score >= s by {
            forall i | 0 <= i < n + 1 ensures b[i].score >= s {
              if i < n {
                assert b[..n][i].score >= s;
              }
            }
          }
          SlotPast(b, s, n + 1);
        }
      } else {
        assert Slot(b, s) == k by {
          SlotPrefix(b, n, s);
        }
      }
    }
  }

  /** Every entry before `k` reaches `s`: the slot is not before `k`. */
  lemma {:induction false} SlotPast(b: seq<Entry>, s: int, k: nat)
    requires k <= |b| && forall i :: 0 <= i < k ==> b[i].score >= s
    ensures Slot(b, s) >= k
    decreases |b|
  {
    if k > 0 {
      assert b[0].score >= s;
      SlotPast(b[1..], s, k - 1);
    }
  }

  /** When the last entry falls below `s`, the slot is the one among the
      other entries. */
  lemma {:induction false} SlotPrefix(b: seq<Entry>, n: nat, s: int)
    requires n + 1 == |b| && b[n].score < s
    ensures Slot(b, s) == Slot(b[..n], s)
    decreases |b|
  {
    if n > 0 && b[0].score >= s {
      assert b[1..][..n - 1] == b[..n][1..];
      SlotPrefix(b[1..], n - 1, s);
    }
  }

  /** `is_high_score` agrees with `add_score` on a board of at most ten
      sorted entries: a score has a rank exactly when its entry survives the
      cut, and then it sits at its slot. */
  lemma HighScoreKept(b: seq<Entry>, e: Entry)
    requires Sorted(b) && |b| <= CAPACITY
    ensures Rank(b, e.score).Some? <==> Slot(b, e.score) < CAPACITY
    ensures |AddedTo(b, e)| == MinNat(|b| + 1, CAPACITY)
    ensures Slot(b, e.score) < CAPACITY ==> AddedTo(b, e)[Slot(b, e.score)] == e
  {
    AddedToSpec(b, e);
    AddedToSorted(b, e);
    var k := Slot(b, e.score);
    if |b| == CAPACITY {
      if e.score > b[|b| - 1].score {
        assert k < CAPACITY;
      }
      if k < CAPACITY {
        assert b[k].score >= b[|b| - 1].score;
      }
    }
    if k < CAPACITY {
      assert Insert(b, e)[k] == e;
    }
  }

  // ---------------------------------------------------------------------
  // Time and points
  // ---------------------------------------------------------------------

  function DigitChar(d: nat): char
    requires d < 10
  {
    "0123456789"[d]
  }

  /** The decimal digits of `n`, without leading zeros. */
  function Digits(n: nat): (r: string)
    ensures |r| >= 1
    decreases n
  {
    if n < 10 then [DigitChar(n)] else Digits(n / 10) + [DigitChar(n % 10)]
  }

  /** Reading a string of decimal digits back. */
  function Parse(s: string): int
    decreases |s|
  {
    if |s| == 0 then 0 else 10 * Parse(s[..|s| - 1]) + ((s[|s| - 1] as int) - ('0' as int))
  }

  lemma {:induction false} DigitsRoundTrip(n: nat)
    ensures Parse(Digits(n)) == n
    decreases n
  {
    if n >= 10 {
      DigitsRoundTrip(n / 10);
      var r := Digits(n);
      assert r[..|r| - 1] == Digits(n / 10);
    }
  }

  /** A leading zero changes nothing. */
  lemma {:induction false} ParseLeadingZero(s: string)
    ensures Parse("0" + s) == Parse(s)
    decreases |s|
  {
    if |s| > 0 {
      var t := "0" + s;
      assert t[..|t| - 1] == "0" + s[..|s| - 1];
      ParseLeadingZero(s[..|s| - 1]);
    }
  }

  /** `f"{n:02d}"`: at least two characters, a zero in front of a single
      digit; a negative number keeps its sign in front. */
  function Pad2(n: int): string
  {
    if 0 <= n < 10 then "0" + Digits(n)
    else if n < 0 then "-" + Digits(-n)
    else Digits(n)
  }

  /** A padded non-negative number reads back as itself and has at least
      two characters; below 100 it has exactly two. */
  lemma Pad2RoundTrip(n: nat)
    ensures Parse(Pad2(n)) == n && |Pad2(n)| >= 2
    ensures n < 100 ==> |Pad2(n)| == 2
  {
    DigitsRoundTrip(n);
    if n < 10 {
      ParseLeadingZero(Digits(n));
    } else if n < 100 {
      assert |Digits(n / 10)| == 1;
    } else {
      assert |Digits(n / 10)| >= 2 by {
        assert n / 10 >= 10;
      }
    }
  }

  /** `format_time`: whole minutes (Python's floor division) and whole
      seconds (Python's float `%`, truncated), padded and joined by ':'. */
  function FormatTime(seconds: real): string
  {
    Pad2((seconds / 60.0).Floor) + ":" + Pad2(PyMod(seconds, 60.0).Floor)
  }

  /** For a non-negative time the text splits at its third-last character
      into the minutes and the seconds, which read back as the whole minutes
      and the whole seconds left over, the latter below 60. */
  lemma FormatTimeReadsBack(seconds: real)
    requires seconds >= 0.0
    ensures var r := FormatTime(seconds);
      && |r| >= 5 && r[|r| - 3] == ':'
      && var minutes := Parse(r[..|r| - 3]);
         var secs := Parse(r[|r| - 2..]);
         && 0 <= secs < 60
         && minutes == (seconds / 60.0).Floor
         && minutes * 60 + secs == seconds.Floor
  {
    var q := (seconds / 60.0).Floor;
    var rem := PyMod(seconds, 60.0);
    PyModDecomposes(seconds, 60.0);
    QuotientNonNeg(seconds, 60.0);
    FloorBounds(seconds / 60.0);
    assert q >= 0;
    var sec := rem.Floor;
    FloorBounds(rem);
    assert 0 <= sec < 60;
    Pad2RoundTrip(q);
    Pad2RoundTrip(sec);
    var r := FormatTime(seconds);
    assert r == Pad2(q) + ":" + Pad2(sec);
    assert r[..|r| - 3] == Pad2(q);
    assert r[|r| - 2..] == Pad2(sec);
    FloorShift(rem, q * 60);
    assert seconds == (q * 60) as real + rem;
  }

  /** Adding a whole number moves the floor by that number. */
  lemma FloorShift(x: real, n: int)
    ensures (x + n as real).Floor == x.Floor + n
  {
    FloorBounds(x);
    FloorBounds(x + n as real);
  }

  /** `get_monster_score_value`'s table; a kind missing from it scores 10. */
  const SCORE_VALUES: map<MonsterKind, nat> := map[
    Skeleton := 10, Wolf := 15, Moray := 20, SmallSpirit := 25, FireSkeleton := 30,
    Witch := 40, Kamikaze := 35, GiantWolf := 50, GiantSkeleton := 45, RoyalMoray := 60,
    Dragon := 100]

  function MonsterScoreValue(k: MonsterKind): nat
  {
    if k in SCORE_VALUES then SCORE_VALUES[k] else 10
  }

  /** Only `Varan` falls back to the default, every kind scores between 10
      and 100, and the dragon is worth the most. */
  lemma ScoreValueFacts(k: MonsterKind)
    ensures k !in SCORE_VALUES <==> k == Varan
    ensures 10 <= MonsterScoreValue(k) <= 100
    ensures MonsterScoreValue(k) == 100 <==> k == Dragon
  {
  }

  // ---------------------------------------------------------------------
  // The manager
  // ---------------------------------------------------------------------

  class ScoreManager {
    var leaderboard: seq<Entry>

    /** A manager over a board read back from storage (reading is not part
        of this model). */
    constructor(loaded: seq<Entry>)
      ensures leaderboard == loaded
    {
      leaderboard := loaded;
    }

    /** `add_score` without the save: append, sort by score descending
        (stably), keep the first ten. */
    method AddScore(playerName: string, score: int, survivedTime: real, wavesCompleted: int)
      modifies this
      ensures leaderboard == AddedTo(old(leaderboard), Entry(playerName, score, survivedTime, wavesCompleted))
    {
      leaderboard := leaderboard + [Entry(playerName, score, survivedTime, wavesCompleted)];
      leaderboard := SortDesc(leaderboard);
      if |leaderboard| > CAPACITY {
        leaderboard := leaderboard[..CAPACITY];
      }
    }

    /** `get_current_player_rank`: the counting loop. */
    method GetCurrentPlayerRank(score: int) returns (rank: Option<nat>)
      ensures rank == Rank(leaderboard, score)
    {
      if |leaderboard| >= CAPACITY && score <= leaderboard[|leaderboard| - 1].score {
        return None;
      }
      var r := 1;
      for i := 0 to |leaderboard|
        invariant r == 1 + CountAbove(leaderboard[..i], score)
      {
        assert leaderboard[..i + 1][..i] == leaderboard[..i];
        if score < leaderboard[i].score {
          r := r + 1;
        }
      }
      assert leaderboard[..|leaderboard|] == leaderboard;
      return Some(r);
    }

    /** `is_high_score`: the score has a rank. */
    method IsHighScore(score: int) returns (high: bool)
      ensures high <==> Rank(leaderboard, score).Some?
    {
      var rank := GetCurrentPlayerRank(score);
      high := rank.Some?;
    }
  }
}
