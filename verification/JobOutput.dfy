/** How many sets of candidates a job leaves when its attempts overlap. */
module JobOutput {
  import opened Wrappers
  import opened Recipes
  import opened RecipeLedger
  import opened Transactions

  /** A write of a job's candidates by an attempt that had seen none. */
  predicate WritesFor(w: Work, m: Move, userId: string, job: string) {
    m.Writes? && m.drafts != [] && m.n in w.attempts && !w.attempts[m.n].seen
    && w.attempts[m.n].from.userId == userId && w.attempts[m.n].from.job == job
  }

  predicate SomeoneWrites(w: Work, moves: seq<Move>, userId: string, job: string)
    requires Legal(w, moves)
    decreases |moves|
  {
    moves != [] && (WritesFor(w, moves[0], userId, job) || SomeoneWrites(Moved(w, moves[0]), moves[1..], userId, job))
  }

  lemma LastingOutput(before: map<string, Row>, after: map<string, Row>, userId: string, job: string)
    requires Lasts(before, after)
    ensures HasOutput(before, userId, job) ==> HasOutput(after, userId, job)
    ensures after.Keys == before.Keys && HasOutput(after, userId, job) ==> HasOutput(before, userId, job)
  {
  }

  lemma AddedOutput(before: map<string, Row>, after: map<string, Row>, from: Origin, userId: string, job: string)
    requires Adds(before, after, from) && exists id :: id in after && id !in before
    ensures HasOutput(after, userId, job) <==> HasOutput(before, userId, job) || (from.userId == userId && from.job == job)
  {
  }

  lemma OutputAfterMove(w: Work, m: Move, userId: string, job: string)
    requires Transactions.Inv(w) && Possible(w, m)
    ensures HasOutput(Moved(w, m).t.recipes, userId, job) <==> HasOutput(w.t.recipes, userId, job) || WritesFor(w, m, userId, job)
  {
    hide HasOutput, Committed, WrittenOnes, Adds, ReadingHolds, Lineage, Lasts;
    match m {
      case Commits(n, action, ids, now) =>
        CommittedLasts(w.t, w.readings[n], action, ids, now);
        LastingOutput(w.t.recipes, Moved(w, m).t.recipes, userId, job);
      case Writes(n, drafts, now) =>
        ScanAddsOnly(w.t, w.attempts[n].from, drafts, now);
        if drafts != [] {
          AddedOutput(w.t.recipes, WrittenOnes(w.t, w.attempts[n].from, drafts, now).recipes, w.attempts[n].from, userId, job);
        }
      case _ =>
    }
  }

  lemma {:induction false} OutputAfterMoves(w: Work, moves: seq<Move>, userId: string, job: string)
    requires Transactions.Inv(w) && Legal(w, moves)
    ensures Transactions.Inv(AllMoved(w, moves))
    ensures HasOutput(AllMoved(w, moves).t.recipes, userId, job) <==> HasOutput(w.t.recipes, userId, job) || SomeoneWrites(w, moves, userId, job)
    decreases |moves|
  {
    if moves != [] {
      hide HasOutput, WritesFor, Transactions.Inv, Moved, Possible, Lasts;
      MoveKeeps(w, moves[0]);
      OutputAfterMove(w, moves[0], userId, job);
      OutputAfterMoves(Moved(w, moves[0]), moves[1..], userId, job);
    }
  }

  predicate LeavesAlone(moves: seq<Move>, n: nat) {
    forall k | 0 <= k < |moves| && (moves[k].Looks? || moves[k].Writes?) :: moves[k].n != n
  }

  lemma {:induction false} AttemptStays(w: Work, moves: seq<Move>, n: nat)
    requires Legal(w, moves) && n in w.attempts && LeavesAlone(moves, n)
    ensures n in AllMoved(w, moves).attempts && AllMoved(w, moves).attempts[n] == w.attempts[n]
    decreases |moves|
  {
    if moves != [] {
      hide Committed;
      AttemptStays(Moved(w, moves[0]), moves[1..], n);
    }
  }

  /** A job that has candidates gets more exactly when an attempt looked before the first were committed and another wrote between its look and its write. */
  lemma JobWritesAgainIff(w: Work, n: nat, from: Origin, between: seq<Move>, drafts: seq<Draft>, now: int)
    requires Transactions.Inv(w) && Possible(w, Looks(n, from)) && Legal(Moved(w, Looks(n, from)), between) && LeavesAlone(between, n)
    requires NewIds(AllMoved(Moved(w, Looks(n, from)), between).t, drafts)
    ensures var looked := Moved(w, Looks(n, from));
      var before := AllMoved(looked, between);
      && Possible(before, Writes(n, drafts, now))
      && (HasOutput(before.t.recipes, from.userId, from.job) && Moved(before, Writes(n, drafts, now)).t != before.t
          <==> drafts != [] && !HasOutput(w.t.recipes, from.userId, from.job) && SomeoneWrites(looked, between, from.userId, from.job))
  {
    var looked := Moved(w, Looks(n, from));
    var before := AllMoved(looked, between);
    assert looked == w.(attempts := looked.attempts);
    hide HasOutput, SomeoneWrites, AllMoved, WrittenOnes, Adds, NewIds;
    AttemptStays(looked, between, n);
    OutputAfterMoves(looked, between, from.userId, from.job);
    ScanAddsOnly(before.t, from, drafts, now);
  }

  /** Two attempts that both look before either writes leave two sets of candidates. */
  lemma OverlappingAttemptsWriteTwice(w: Work, n: nat, other: nat, from: Origin, first: seq<Draft>, second: seq<Draft>, now: int)
    requires Transactions.Inv(w) && n !in w.attempts && other !in w.attempts && n != other && !HasOutput(w.t.recipes, from.userId, from.job)
    requires first != [] && second != [] && NewIds(w.t, first) && NewIds(WrittenOnes(w.t, from, first, now), second)
    ensures var looked := Moved(w, Looks(n, from));
      var between := [Looks(other, from), Writes(other, first, now)];
      && Legal(looked, between) && Possible(AllMoved(looked, between), Writes(n, second, now))
      && var before := AllMoved(looked, between);
        HasOutput(before.t.recipes, from.userId, from.job) && Moved(before, Writes(n, second, now)).t != before.t
  {
    var looked := Moved(w, Looks(n, from));
    var both := Moved(looked, Looks(other, from));
    var between := [Looks(other, from), Writes(other, first, now)];
    hide HasOutput, WrittenOnes, NewIds, Transactions.Inv;
    InTwo(looked, Looks(other, from), Writes(other, first, now));
    WrittenBetween(looked, Looks(other, from), Writes(other, first, now), from.userId, from.job);
    JobWritesAgainIff(w, n, from, between, second, now);
  }

  lemma WrittenBetween(w: Work, a: Move, b: Move, userId: string, job: string)
    requires Possible(w, a) && Possible(Moved(w, a), b) && WritesFor(Moved(w, a), b, userId, job)
    ensures Legal(w, [a, b]) && SomeoneWrites(w, [a, b], userId, job)
  {
    InTwo(w, a, b);
    assert [a, b][1..] == [b];
    assert SomeoneWrites(Moved(w, a), [b], userId, job);
  }
}
