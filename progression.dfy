/**
 * Experience, levels and what a level unlocks: plots 3 and 4 and the story
 * chapters, as values the game state's `addExp` and `checkUnlocks` apply.
 */
module Progression {
  import opened Wrappers
  import opened Content
  import opened Farming

  const MaxLevel := 30

  /** The experience a level-up from `level` costs. */
  function Threshold(level: int): int { level * 100 }

  /**
   * `addExp` on the level and experience: nothing at the top level;
   * otherwise the experience grows by `amount`, and one threshold crossing
   * raises the level by exactly one, carrying the surplus over. A single
   * call never raises the level twice, whatever the surplus.
   */
  function ExpStep(level: int, exp: int, amount: int): (r: (int, int))
    ensures level >= MaxLevel ==> r == (level, exp)
    ensures level < MaxLevel ==> (r.0 == level + 1 <==> exp + amount >= Threshold(level))
    ensures level < MaxLevel ==> r.0 == level || r.0 == level + 1
    ensures level < MaxLevel && r.0 == level ==> r.1 == exp + amount
    ensures level < MaxLevel && r.0 == level + 1 ==> r.1 == exp + amount - Threshold(level)
  {
    if level >= MaxLevel then (level, exp)
    else
      var exp := exp + amount;
      var nextLevelExp := level * 100;
      if exp >= nextLevelExp then (level + 1, exp - nextLevelExp) else (level, exp)
  }

  ghost predicate NoDuplicates(s: seq<int>) {
    forall i, j :: 0 <= i < j < |s| ==> s[i] != s[j]
  }

  /**
   * The chapter pass of `checkUnlocks`: in table order, append the id of
   * every chapter the level reaches that is not unlocked yet.
   */
  function UnlockChapters(unlocked: seq<int>, chapters: seq<Chapter>, level: int): seq<int>
    decreases |chapters|, unlocked
  {
    if chapters == [] then unlocked
    else
      var c := chapters[0];
      var next := if level >= c.unlockLevel && c.id !in unlocked then unlocked + [c.id] else unlocked;
      UnlockChapters(next, chapters[1..], level)
  }

  /**
   * The chapter pass only appends; afterwards the list holds exactly the
   * old ids and those of the chapters the level reaches, still each once.
   */
  lemma {:induction false} UnlockChaptersSpec(unlocked: seq<int>, chapters: seq<Chapter>, level: int)
    ensures var r := UnlockChapters(unlocked, chapters, level);
      && unlocked <= r
      && (forall x :: x in r <==> x in unlocked || exists c :: c in chapters && c.unlockLevel <= level && c.id == x)
      && (NoDuplicates(unlocked) ==> NoDuplicates(r))
    decreases |chapters|
  {
    if chapters != [] {
      var c := chapters[0];
      var next := if level >= c.unlockLevel && c.id !in unlocked then unlocked + [c.id] else unlocked;
      assert forall x :: x in next <==> x in unlocked || (c.unlockLevel <= level && c.id == x);
      UnlockChaptersSpec(next, chapters[1..], level);
      assert forall d :: d in chapters <==> d == c || d in chapters[1..];
    }
  }

  /** Once every chapter the level reaches is unlocked, the chapter pass changes nothing. */
  lemma {:induction false} UnlockChaptersFixed(unlocked: seq<int>, chapters: seq<Chapter>, level: int)
    requires forall c :: c in chapters && c.unlockLevel <= level ==> c.id in unlocked
    ensures UnlockChapters(unlocked, chapters, level) == unlocked
    decreases |chapters|
  {
    if chapters != [] {
      assert chapters[0] in chapters;
      UnlockChaptersFixed(unlocked, chapters[1..], level);
    }
  }

  /** The plot pass of `checkUnlocks`: plot 3 opens from level 2, plot 4 from level 3; nothing else moves. */
  function UnlockPlots(plots: seq<Plot>, level: int): (r: seq<Plot>)
    requires |plots| == 4
    ensures |r| == 4 && r[0] == plots[0] && r[1] == plots[1]
    ensures forall i :: 0 <= i < 4 ==> r[i] == plots[i] || (i >= 2 && plots[i].status == Locked && r[i] == plots[i].(status := Empty))
    ensures r[2].status == (if level >= 2 && plots[2].status == Locked then Empty else plots[2].status)
    ensures r[3].status == (if level >= 3 && plots[3].status == Locked then Empty else plots[3].status)
  {
    var plots := if level >= 2 && plots[2].status == Locked then plots[2 := plots[2].(status := Empty)] else plots;
    var plots := if level >= 3 && plots[3].status == Locked then plots[3 := plots[3].(status := Empty)] else plots;
    plots
  }

  /** The part of the game state that experience moves. */
  datatype Progress = Progress(level: int, exp: int, plots: seq<Plot>, chapters: seq<int>)

  /** `checkUnlocks` on the progress. */
  function Unlocked(p: Progress): (r: Progress)
    requires |p.plots| == 4
    ensures r.level == p.level && r.exp == p.exp && |r.plots| == 4
  {
    p.(plots := UnlockPlots(p.plots, p.level), chapters := UnlockChapters(p.chapters, Chapters, p.level))
  }

  /** `addExp` on the progress: the level step, and the unlock check only after a level-up. */
  function AfterExp(p: Progress, amount: int): (r: Progress)
    requires |p.plots| == 4
    ensures (r.level, r.exp) == ExpStep(p.level, p.exp, amount)
    ensures r.level == p.level ==> r.plots == p.plots && r.chapters == p.chapters
    ensures r.level != p.level ==> r == Unlocked(p.(level := r.level, exp := r.exp))
  {
    var (level, exp) := ExpStep(p.level, p.exp, amount);
    if level != p.level then Unlocked(p.(level := level, exp := exp)) else p.(exp := exp)
  }

  /** `checkUnlocks` is idempotent: a second call at the same level finds nothing more to unlock. */
  lemma UnlockedIdempotent(p: Progress)
    requires |p.plots| == 4
    ensures Unlocked(Unlocked(p)) == Unlocked(p)
  {
    var r := UnlockChapters(p.chapters, Chapters, p.level);
    UnlockChaptersSpec(p.chapters, Chapters, p.level);
    UnlockChaptersFixed(r, Chapters, p.level);
  }
}
