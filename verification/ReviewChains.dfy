/**
 Accepting and revoking reviews.  Query-window and source-scope reviews are kept in append-only
 tables; every write follows the newest review of its intake.
 */
module ReviewChains {
  import opened LifecycleValues

  /** The two stores differ in what counts as the same acceptance, and in how a revocation reads. */
  datatype Store = WindowReviews | ScopeReviews

  datatype Decision = Accepted | Revoked

  /** What a review's fingerprint covers; `content` stands for everything that is attested. */
  datatype Facts = Facts(intake: Token, content: Token, decision: Decision, supersedes: Option<Token>, reviewer: Token)

  datatype Review = Review(id: Token, facts: Facts)

  datatype Rejection = NotAllowed | ActiveConflict | ReviewMissing | ReviewDrift | IdTaken

  datatype Outcome = Saved(review: Review, reused: bool) | Denied(reason: Rejection)

  /** Newest review of an intake (ORDER BY id DESC LIMIT 1). */
  function Latest(rows: seq<Review>, intake: Token): (r: Option<Review>)
    ensures r.Some? ==> r.value in rows && r.value.facts.intake == intake
    ensures r.None? ==> forall row :: row in rows ==> row.facts.intake != intake
  {
    if rows == [] then None
    else if rows[|rows| - 1].facts.intake == intake then Some(rows[|rows| - 1])
    else Latest(rows[..|rows| - 1], intake)
  }

  predicate Taken(rows: seq<Review>, id: Token) {
    exists i :: 0 <= i < |rows| && rows[i].id == id
  }

  /** Window reviews ignore who reviewed; scope reviews compare the whole payload. */
  predicate SameAcceptance(store: Store, latest: Review, content: Token, reviewer: Token) {
    latest.facts.content == content && (store.ScopeReviews? ==> latest.facts.reviewer == reviewer)
  }

  function Insert(rows: seq<Review>, review: Review): (seq<Review>, Outcome) {
    if Taken(rows, review.id) then (rows, Denied(IdTaken)) else (rows + [review], Saved(review, false))
  }

  /** `allowed` is the answer of the input checks and of the current source. */
  function Record(store: Store, rows: seq<Review>, intake: Token, content: Token, reviewer: Token, allowed: bool, id: Token)
    : (seq<Review>, Outcome)
  {
    var latest := Latest(rows, intake);
    if !allowed then (rows, Denied(NotAllowed))
    else if latest.Some? && latest.value.facts.decision.Accepted? then
      if SameAcceptance(store, latest.value, content, reviewer) then (rows, Saved(latest.value, true))
      else (rows, Denied(ActiveConflict))
    else
      Insert(rows, Review(id, Facts(intake, content, Accepted, if latest.Some? then Some(latest.value.id) else None, reviewer)))
  }

  function RevocationOf(latest: Review, reviewer: Token, id: Token): Review {
    Review(id, Facts(latest.facts.intake, latest.facts.content, Revoked, Some(latest.id), reviewer))
  }

  /** The checks a revocation makes on the newest review: an answer, or the review to revoke. */
  datatype Check = Answer(outcome: Outcome) | Go(target: Review)

  function CheckRevoke(rows: seq<Review>, intake: Token, expectedId: Token, expected: Facts): Check {
    var latest := Latest(rows, intake);
    if latest.None? then Answer(Denied(ReviewMissing))
    else if latest.value.facts.decision.Revoked? then
      if latest.value.facts.supersedes == Some(expectedId) then Answer(Saved(latest.value, true))
      else Answer(Denied(ReviewDrift))
    else if latest.value.id != expectedId || latest.value.facts != expected then Answer(Denied(ReviewDrift))
    else Go(latest.value)
  }

  /** A window review is checked and revoked in one transaction. */
  function Revoke(rows: seq<Review>, intake: Token, expectedId: Token, expected: Facts, reviewer: Token, id: Token)
    : (seq<Review>, Outcome)
  {
    match CheckRevoke(rows, intake, expectedId, expected)
    case Answer(outcome) => (rows, outcome)
    case Go(target) => Insert(rows, RevocationOf(target, reviewer, id))
  }

  /** A scope review is checked first and written in a later transaction, which looks at the newest
      review's id again. */
  function WriteRevoke(rows: seq<Review>, target: Review, reviewer: Token, id: Token): (seq<Review>, Outcome) {
    var current := Latest(rows, target.facts.intake);
    if current.None? || current.value.id != target.id then (rows, Denied(ReviewDrift))
    else Insert(rows, RevocationOf(target, reviewer, id))
  }

  class ReviewRepository {
    const store: Store
    var rows: seq<Review>

    constructor (store: Store)
      ensures this.store == store && rows == []
    {
      this.store, rows := store, [];
    }

    method InsertReview(review: Review) returns (outcome: Outcome)
      modifies this
      ensures (rows, outcome) == Insert(old(rows), review)
    {
      if Taken(rows, review.id) {
        return Denied(IdTaken);
      }
      rows := rows + [review];
      outcome := Saved(review, false);
    }

    method RecordReview(intake: Token, content: Token, reviewer: Token, allowed: bool, id: Token) returns (outcome: Outcome)
      modifies this
      ensures (rows, outcome) == Record(store, old(rows), intake, content, reviewer, allowed, id)
    {
      if !allowed {
        return Denied(NotAllowed);
      }
      var latest := Latest(rows, intake);
      var supersedes: Option<Token> := None;
      if latest.Some? {
        if latest.value.facts.decision.Accepted? {
          if SameAcceptance(store, latest.value, content, reviewer) {
            return Saved(latest.value, true);
          }
          return Denied(ActiveConflict);
        }
        supersedes := Some(latest.value.id);
      }
      outcome := InsertReview(Review(id, Facts(intake, content, Accepted, supersedes, reviewer)));
    }

    method RevokeLatest(intake: Token, expectedId: Token, expected: Facts, reviewer: Token, id: Token) returns (outcome: Outcome)
      modifies this
      ensures (rows, outcome) == Revoke(old(rows), intake, expectedId, expected, reviewer, id)
    {
      var latest := Latest(rows, intake);
      if latest.None? {
        return Denied(ReviewMissing);
      }
      if latest.value.facts.decision.Revoked? {
        if latest.value.facts.supersedes == Some(expectedId) {
          return Saved(latest.value, true);
        }
        return Denied(ReviewDrift);
      }
      if latest.value.id != expectedId || latest.value.facts != expected {
        return Denied(ReviewDrift);
      }
      outcome := InsertReview(RevocationOf(latest.value, reviewer, id));
    }

    /** The second transaction of a scope revocation. */
    method CommitRevocation(target: Review, reviewer: Token, id: Token) returns (outcome: Outcome)
      modifies this
      ensures (rows, outcome) == WriteRevoke(old(rows), target, reviewer, id)
    {
      var current := Latest(rows, target.facts.intake);
      if current.None? || current.value.id != target.id {
        return Denied(ReviewDrift);
      }
      outcome := InsertReview(RevocationOf(target, reviewer, id));
    }
  }

  // ---------------------------------------------------------------- chains

  predicate DistinctIds(rows: seq<Review>) {
    forall i, j :: 0 <= i < j < |rows| ==> rows[i].id != rows[j].id
  }

  /** A review fits after the newest one of its intake. */
  predicate Follows(previous: Option<Review>, review: Review) {
    match previous
    case None => review.facts.decision.Accepted? && review.facts.supersedes.None?
    case Some(p) =>
      && review.facts.supersedes == Some(p.id) && review.facts.decision != p.facts.decision
      && (review.facts.decision.Revoked? ==> review.facts.content == p.facts.content)
  }

  predicate Linked(rows: seq<Review>) {
    rows == []
    || (Linked(rows[..|rows| - 1])
        && Follows(Latest(rows[..|rows| - 1], rows[|rows| - 1].facts.intake), rows[|rows| - 1]))
  }

  predicate Inv(rows: seq<Review>) { DistinctIds(rows) && Linked(rows) }

  /** The reviews of one intake, oldest first. */
  function Chain(rows: seq<Review>, intake: Token): seq<Review> {
    if rows == [] then []
    else
      Chain(rows[..|rows| - 1], intake)
      + if rows[|rows| - 1].facts.intake == intake then [rows[|rows| - 1]] else []
  }

  lemma {:induction false} LatestEndsChain(rows: seq<Review>, intake: Token)
    ensures Latest(rows, intake)
            == if Chain(rows, intake) == [] then None else Some(Chain(rows, intake)[|Chain(rows, intake)| - 1])
  {
    if rows != [] {
      LatestEndsChain(rows[..|rows| - 1], intake);
    }
  }

  /** Accepted, revoked, accepted, ...; each superseding the one right before it; a revocation repeats
      what it revokes. */
  predicate Alternates(chain: seq<Review>) {
    && (chain != [] ==> chain[0].facts.supersedes.None?)
    && (forall i :: 0 <= i < |chain| ==> (chain[i].facts.decision.Accepted? <==> i % 2 == 0))
    && (forall i :: 0 < i < |chain| ==> chain[i].facts.supersedes == Some(chain[i - 1].id))
    && (forall i :: 0 < i < |chain| && i % 2 == 1 ==> chain[i].facts.content == chain[i - 1].facts.content)
  }

  lemma AlternatesAppend(chain: seq<Review>, review: Review)
    requires Alternates(chain)
    requires Follows(if chain == [] then None else Some(chain[|chain| - 1]), review)
    ensures Alternates(chain + [review])
  {
  }

  lemma {:induction false} LinkedAlternates(rows: seq<Review>, intake: Token)
    requires Linked(rows)
    ensures Alternates(Chain(rows, intake))
  {
    if rows != [] {
      var front, last := rows[..|rows| - 1], rows[|rows| - 1];
      LinkedAlternates(front, intake);
      LatestEndsChain(front, intake);
      if last.facts.intake == intake {
        AlternatesAppend(Chain(front, intake), last);
      } else {
        assert Chain(rows, intake) == Chain(front, intake);
      }
    }
  }

  // ---------------------------------------------------------------- every write keeps the chains

  lemma AppendKeepsInv(rows: seq<Review>, review: Review)
    requires Inv(rows) && !Taken(rows, review.id) && Follows(Latest(rows, review.facts.intake), review)
    ensures Inv(rows + [review])
  {
  }

  lemma RecordKeepsInv(store: Store, rows: seq<Review>, intake: Token, content: Token, reviewer: Token, allowed: bool, id: Token)
    requires Inv(rows)
    ensures Inv(Record(store, rows, intake, content, reviewer, allowed, id).0)
  {
  }

  lemma RevocationFits(rows: seq<Review>, target: Review, reviewer: Token, id: Token)
    requires Inv(rows) && Latest(rows, target.facts.intake) == Some(target) && target.facts.decision.Accepted?
    ensures Inv(Insert(rows, RevocationOf(target, reviewer, id)).0)
  {
  }

  // ---------------------------------------------------------------- interleavings

  /** The table and the revocations that have been checked but not written, by process. */
  datatype System = System(rows: seq<Review>, pending: map<nat, Review>)

  const START := System([], map[])

  datatype Action =
    | RecordAction(store: Store, intake: Token, content: Token, reviewer: Token, allowed: bool, id: Token)
    | RevokeAction(intake: Token, expectedId: Token, expected: Facts, reviewer: Token, id: Token)
    | CheckAction(pid: nat, intake: Token, expectedId: Token, expected: Facts)
    | WriteAction(pid: nat, reviewer: Token, id: Token)

  function Next(s: System, a: Action): System {
    match a
    case RecordAction(store, intake, content, reviewer, allowed, id) =>
      s.(rows := Record(store, s.rows, intake, content, reviewer, allowed, id).0)
    case RevokeAction(intake, expectedId, expected, reviewer, id) =>
      s.(rows := Revoke(s.rows, intake, expectedId, expected, reviewer, id).0)
    case CheckAction(pid, intake, expectedId, expected) =>
      var check := CheckRevoke(s.rows, intake, expectedId, expected);
      if check.Go? then s.(pending := s.pending[pid := check.target]) else s
    case WriteAction(pid, reviewer, id) =>
      if pid in s.pending
      then System(WriteRevoke(s.rows, s.pending[pid], reviewer, id).0, s.pending - {pid})
      else s
  }

  function Play(actions: seq<Action>): System {
    if actions == [] then START else Next(Play(actions[..|actions| - 1]), actions[|actions| - 1])
  }

  /** A checked revocation still names a stored acceptance. */
  predicate SystemInv(s: System) {
    Inv(s.rows) && forall pid :: pid in s.pending ==> s.pending[pid] in s.rows && s.pending[pid].facts.decision.Accepted?
  }

  lemma WriteKeepsInv(rows: seq<Review>, target: Review, reviewer: Token, id: Token)
    requires Inv(rows) && target in rows && target.facts.decision.Accepted?
    ensures Inv(WriteRevoke(rows, target, reviewer, id).0)
  {
  }

  lemma NextKeepsInv(s: System, a: Action)
    requires SystemInv(s)
    ensures SystemInv(Next(s, a))
  {
    match a {
      case RecordAction(store, intake, content, reviewer, allowed, id) =>
        RecordKeepsInv(store, s.rows, intake, content, reviewer, allowed, id);
      case RevokeAction(intake, expectedId, expected, reviewer, id) =>
        var check := CheckRevoke(s.rows, intake, expectedId, expected);
        if check.Go? {
          RevocationFits(s.rows, check.target, reviewer, id);
        }
      case CheckAction(_, _, _, _) =>
      case WriteAction(pid, reviewer, id) =>
        if pid in s.pending {
          WriteKeepsInv(s.rows, s.pending[pid], reviewer, id);
        }
    }
  }

  lemma {:induction false} EveryRunKeepsInv(actions: seq<Action>)
    ensures SystemInv(Play(actions))
  {
    if actions != [] {
      EveryRunKeepsInv(actions[..|actions| - 1]);
      NextKeepsInv(Play(actions[..|actions| - 1]), actions[|actions| - 1]);
    }
  }

  /** Over every interleaving each intake's reviews form one alternating chain. */
  lemma ChainsAlternate(actions: seq<Action>, intake: Token)
    ensures Alternates(Chain(Play(actions).rows, intake))
  {
    EveryRunKeepsInv(actions);
    LinkedAlternates(Play(actions).rows, intake);
  }

  // ---------------------------------------------------------------- repeating adds nothing

  /** Recording the same acceptance again answers with the stored review, whether the first answer was new
      or not. */
  lemma RecordAgain(store: Store, rows: seq<Review>, intake: Token, content: Token, reviewer: Token, id: Token, again: Token)
    requires Record(store, rows, intake, content, reviewer, true, id).1.Saved?
    ensures var (next, outcome) := Record(store, rows, intake, content, reviewer, true, id);
            Record(store, next, intake, content, reviewer, true, again) == (next, Saved(outcome.review, true))
  {
  }

  /** Revoking again answers with the stored revocation, whether the first answer was new or not. */
  lemma RevokeAgain(rows: seq<Review>, intake: Token, expectedId: Token, expected: Facts, reviewer: Token, id: Token, again: Token)
    requires Revoke(rows, intake, expectedId, expected, reviewer, id).1.Saved?
    ensures var (next, outcome) := Revoke(rows, intake, expectedId, expected, reviewer, id);
            Revoke(next, intake, expectedId, expected, reviewer, again) == (next, Saved(outcome.review, true))
  {
  }

  /** After the write of a scope revocation, checking the same revocation again answers with the stored one
      and leaves nothing to write. */
  lemma WrittenRevokeAgain(rows: seq<Review>, target: Review, reviewer: Token, id: Token, expected: Facts)
    requires WriteRevoke(rows, target, reviewer, id).1.Saved?
    ensures var (next, outcome) := WriteRevoke(rows, target, reviewer, id);
            CheckRevoke(next, target.facts.intake, target.id, expected) == Answer(Saved(outcome.review, true))
  {
    assert (rows + [RevocationOf(target, reviewer, id)])[..|rows|] == rows;
  }

  // ---------------------------------------------------------------- an acceptance is revoked at most once

  /** Row `j` supersedes row `i`. */
  predicate Supersedes(rows: seq<Review>, i: nat, j: nat)
    requires i < |rows| && j < |rows|
  {
    rows[j].facts.supersedes == Some(rows[i].id)
  }

  lemma {:induction false} LatestIndex(rows: seq<Review>, intake: Token) returns (k: nat)
    requires Latest(rows, intake).Some?
    ensures k < |rows| && Latest(rows, intake) == Some(rows[k])
    ensures forall j :: k < j < |rows| ==> rows[j].facts.intake != intake
  {
    if rows[|rows| - 1].facts.intake == intake {
      k := |rows| - 1;
    } else {
      k := LatestIndex(rows[..|rows| - 1], intake);
    }
  }

  /** Every review follows the newest one of its intake before it. */
  lemma {:induction false} LinkedAt(rows: seq<Review>, j: nat)
    requires Linked(rows) && j < |rows|
    ensures Follows(Latest(rows[..j], rows[j].facts.intake), rows[j])
  {
    if j < |rows| - 1 {
      LinkedAt(rows[..|rows| - 1], j);
      assert rows[..|rows| - 1][..j] == rows[..j];
    }
  }

  /** What a row supersedes comes before it and is of the same intake, with no other row of that intake in
      between. */
  lemma SupersededIsPrevious(rows: seq<Review>, i: nat, j: nat)
    requires Inv(rows) && i < |rows| && j < |rows| && Supersedes(rows, i, j)
    ensures i < j && rows[i].facts.intake == rows[j].facts.intake
    ensures rows[i].facts.decision != rows[j].facts.decision
    ensures forall m :: i < m < j ==> rows[m].facts.intake != rows[i].facts.intake
  {
    LinkedAt(rows, j);
    var k := LatestIndex(rows[..j], rows[j].facts.intake);
    assert rows[..j][k] == rows[k] && rows[k].id == rows[i].id;
    assert k == i;
  }

  /** No review is superseded twice: over every interleaving an acceptance is revoked at most once. */
  lemma SupersededOnce(actions: seq<Action>, i: nat, j: nat, k: nat)
    requires i < |Play(actions).rows| && j < |Play(actions).rows| && k < |Play(actions).rows|
    requires Supersedes(Play(actions).rows, i, j) && Supersedes(Play(actions).rows, i, k)
    ensures j == k
  {
    var rows := Play(actions).rows;
    EveryRunKeepsInv(actions);
    SupersededIsPrevious(rows, i, j);
    SupersededIsPrevious(rows, i, k);
    assert !(i < j < k) && !(i < k < j);
  }

  /** The newest review of an intake has been superseded by none. */
  lemma SupersededIsNotLatest(rows: seq<Review>, i: nat, j: nat)
    requires Inv(rows) && i < |rows| && j < |rows| && Supersedes(rows, i, j)
    ensures Latest(rows, rows[i].facts.intake).Some? && Latest(rows, rows[i].facts.intake).value.id != rows[i].id
  {
    SupersededIsPrevious(rows, i, j);
    var k := LatestIndex(rows, rows[i].facts.intake);
  }

  predicate Extends(later: seq<Review>, earlier: seq<Review>) {
    |earlier| <= |later| && forall i :: 0 <= i < |earlier| ==> later[i] == earlier[i]
  }

  lemma NextExtends(s: System, a: Action)
    ensures Extends(Next(s, a).rows, s.rows)
  {
  }

  lemma PlayLast(actions: seq<Action>, last: Action)
    ensures Play(actions + [last]) == Next(Play(actions), last)
  {
    assert (actions + [last])[..|actions|] == actions;
  }

  /** Rows are only ever added. */
  lemma {:induction false} PlayExtends(actions: seq<Action>, more: seq<Action>)
    ensures Extends(Play(actions + more).rows, Play(actions).rows)
  {
    hide Next;
    if more == [] {
      assert actions + more == actions;
    } else {
      var front, last := more[..|more| - 1], more[|more| - 1];
      PlayExtends(actions, front);
      PlayLast(actions + front, last);
      assert actions + more == actions + front + [last];
      NextExtends(Play(actions + front), last);
    }
  }

  /** The answer when the acceptance that row `j` revoked is revoked again: row `j` while it is the newest of
      its intake, else that it is out of date. */
  function RepeatedAnswer(rows: seq<Review>, j: nat): Outcome
    requires j < |rows|
  {
    if Latest(rows, rows[j].facts.intake) == Some(rows[j]) then Saved(rows[j], true) else Denied(ReviewDrift)
  }

  lemma RevokedStays(rows: seq<Review>, i: nat, j: nat, expected: Facts, reviewer: Token, id: Token)
    requires Inv(rows) && i < |rows| && j < |rows| && Supersedes(rows, i, j) && rows[i].facts.decision.Accepted?
    ensures var revoked := rows[i];
            && CheckRevoke(rows, revoked.facts.intake, revoked.id, expected) == Answer(RepeatedAnswer(rows, j))
            && Revoke(rows, revoked.facts.intake, revoked.id, expected, reviewer, id) == (rows, RepeatedAnswer(rows, j))
            && WriteRevoke(rows, revoked, reviewer, id) == (rows, Denied(ReviewDrift))
  {
    SupersededIsNotLatest(rows, i, j);
    SupersededIsPrevious(rows, i, j);
    var k := LatestIndex(rows, rows[i].facts.intake);
    if Supersedes(rows, i, k) {
      SupersededIsPrevious(rows, i, k);
      assert j == k;
    }
  }

  /** Whatever has happened since an acceptance was revoked, under any interleaving and whoever asks: revoking
      it again writes nothing, in one transaction or in two, with a check made now or before. */
  lemma RevokedIsForever(
      actions: seq<Action>, more: seq<Action>, i: nat, j: nat, expected: Facts, reviewer: Token, id: Token)
    requires i < |Play(actions).rows| && j < |Play(actions).rows| && Supersedes(Play(actions).rows, i, j)
    requires Play(actions).rows[i].facts.decision.Accepted?
    ensures j < |Play(actions + more).rows|
    ensures var revoked, rows := Play(actions).rows[i], Play(actions + more).rows;
            && CheckRevoke(rows, revoked.facts.intake, revoked.id, expected) == Answer(RepeatedAnswer(rows, j))
            && Revoke(rows, revoked.facts.intake, revoked.id, expected, reviewer, id) == (rows, RepeatedAnswer(rows, j))
            && WriteRevoke(rows, revoked, reviewer, id) == (rows, Denied(ReviewDrift))
  {
    PlayExtends(actions, more);
    EveryRunKeepsInv(actions + more);
    RevokedStays(Play(actions + more).rows, i, j, expected, reviewer, id);
  }

  /** Two processes that checked the same acceptance cannot both revoke it. */
  lemma OneRevocationWins(rows: seq<Review>, target: Review, reviewer: Token, first: Token, second: Token)
    requires Inv(rows) && target in rows && WriteRevoke(rows, target, reviewer, first).1.Saved?
    ensures var next := WriteRevoke(rows, target, reviewer, first).0;
            WriteRevoke(next, target, reviewer, second) == (next, Denied(ReviewDrift))
  {
    var next := WriteRevoke(rows, target, reviewer, first).0;
    assert next == rows + [RevocationOf(target, reviewer, first)];
    assert Latest(next, target.facts.intake) == Some(RevocationOf(target, reviewer, first));
    assert first != target.id;
  }
}
