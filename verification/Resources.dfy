// Acquiring resources at every party, or giving back what was acquired.
module Resources {
  import opened Common
  import opened Federated
  import opened Parser

  // ------------------------------------------------------------------
  // One party
  // ------------------------------------------------------------------

  /** How far an APPLY gets: not to the party, to the party but the reply is lost, or there and back. */
  datatype Link = Unreached | ReplyLost | Replied

  /** What decides a party's answers: whether the job or task needs anything there, exceeds the party's total, finds
      enough left; how the APPLY travels; and whether a RETURN gets through. */
  datatype Local = Local(needs: bool, over: bool, room: bool, link: Link, released: bool)

  /** Each party's situation. */
  type World = Party -> Local

  /** The party's own answer to an APPLY: one that already holds the resource refuses. */
  function LocalCode(here: Local, inUse: bool): ReturnCode {
    if here.over then ResourceLimitExceeded
    else if !here.needs || (!inUse && here.room) then Ok
    else Refusal(1)
  }

  /** What the scheduler hears: an error code for a lost command or a lost reply. */
  function HeardCode(here: Local, inUse: bool): ReturnCode {
    if here.link == Replied then LocalCode(here, inUse) else Refusal(100)
  }

  /** The APPLY takes effect, whatever the scheduler hears. */
  predicate Takes(here: Local, inUse: bool) {
    here.link != Unreached && here.needs && !here.over && !inUse && here.room
  }

  /** The RETURN takes effect only where the resource is held. */
  predicate GivesBack(here: Local, inUse: bool) {
    here.released && here.needs && inUse
  }

  // ------------------------------------------------------------------
  // One APPLY
  // ------------------------------------------------------------------

  /** Who holds the resource, and the answers so far. */
  datatype Exchange = Exchange(held: set<Party>, response: Response)

  function AskOne(world: World, s: Exchange, p: Party): Exchange {
    var inUse := p in s.held;
    var answers := Lookup(s.response, p.role, map[]);
    Exchange(if Takes(world(p), inUse) then s.held + {p} else s.held,
             s.response[p.role := answers[p.id := HeardCode(world(p), inUse)]])
  }

  function AskList(world: World, s: Exchange, ps: seq<Party>): Exchange {
    if ps == [] then s else AskOne(world, AskList(world, s, ps[..|ps| - 1]), ps[|ps| - 1])
  }

  /** A command to a job's parties: each entry of a role starts its answers anew. */
  function AskEntries(world: World, s: Exchange, specs: seq<PartySpec>): Exchange {
    if specs == [] then s
    else
      var before := AskEntries(world, s, specs[..|specs| - 1]);
      var last := specs[|specs| - 1];
      AskList(world, before.(response := before.response[last.role := map[]]), Places([last]))
  }

  /** p finds the command, needs the resource, does not hold it, and has room for it. */
  predicate Gets(world: World, held: set<Party>, p: Party) {
    && p !in held && world(p).needs && world(p).room && !world(p).over
    && (world(p).link == ReplyLost || world(p).link == Replied)
  }

  /** p's own answer and its reply are a SUCCESS: nothing exceeds its total, and it needs nothing, or does not hold it yet
      and has room. */
  predicate Grants(world: World, held: set<Party>, p: Party) {
    world(p).link == Replied && !world(p).over && (world(p).needs ==> p !in held && world(p).room)
  }

  /** p is heard to have it, and the RETURN gets through. */
  predicate HandsBack(world: World, p: Party) {
    world(p).link == Replied && world(p).released
  }

  function Takers(world: World, held: set<Party>, asked: seq<Party>): set<Party> {
    set p | p in asked && Takes(world(p), p in held)
  }

  /** Whether p holds the resource when it is asked for the last time. */
  predicate InUseAtLast(world: World, held: set<Party>, asked: seq<Party>, p: Party) {
    p in held || (multiset(asked)[p] > 1 && Takes(world(p), p in held))
  }

  /** What asking the parties in asked, some perhaps twice, made of held. */
  ghost predicate Asked(world: World, held: set<Party>, s: Exchange, asked: seq<Party>) {
    && s.held == held + Takers(world, held, asked)
    && forall p :: Answered(s.response, p) ==>
         p in asked && CodeOf(s.response, p) == HeardCode(world(p), InUseAtLast(world, held, asked, p))
  }

  lemma AskedOne(world: World, held: set<Party>, s: Exchange, asked: seq<Party>, p: Party)
    requires Asked(world, held, s, asked)
    ensures Asked(world, held, AskOne(world, s, p), asked + [p])
    ensures forall q :: Answered(AskOne(world, s, p).response, q) <==> q == p || Answered(s.response, q)
  {
    hide HeardCode;
    var s', asked' := AskOne(world, s, p), asked + [p];
    assert multiset(asked')[p] == multiset(asked)[p] + 1;
    assert forall q :: q != p ==> multiset(asked')[q] == multiset(asked)[q];
    assert Takers(world, held, asked') == Takers(world, held, asked) + Takers(world, held, [p]);
  }

  lemma {:induction false} AskedList(world: World, held: set<Party>, s: Exchange, asked: seq<Party>, ps: seq<Party>)
    requires Asked(world, held, s, asked)
    ensures Asked(world, held, AskList(world, s, ps), asked + ps)
    ensures forall q :: Answered(AskList(world, s, ps).response, q) <==> q in ps || Answered(s.response, q)
  {
    hide Asked, AskOne;
    if ps == [] {
      assert asked + ps == asked;
    } else {
      var front, last := ps[..|ps| - 1], ps[|ps| - 1];
      AskedList(world, held, s, asked, front);
      AskedOne(world, held, AskList(world, s, front), asked + front, last);
      assert asked + ps == asked + front + [last];
    }
  }

  lemma PlacesCons(specs: seq<PartySpec>)
    requires specs != []
    ensures Places(specs) == Places([specs[0]]) + Places(specs[1..])
  {
    assert Places([specs[0]][1..]) == [];
  }

  lemma {:induction false} PlacesSnoc(specs: seq<PartySpec>)
    requires specs != []
    ensures Places(specs) == Places(specs[..|specs| - 1]) + Places([specs[|specs| - 1]])
  {
    var front, last := specs[..|specs| - 1], specs[|specs| - 1];
    if front == [] {
      assert specs == [last];
    } else {
      PlacesCons(specs);
      PlacesCons(front);
      hide Places;
      PlacesSnoc(specs[1..]);
      assert specs[1..][..|specs| - 2] == front[1..];
    }
  }

  lemma OneEntry(spec: PartySpec, p: Party)
    ensures p in Places([spec]) <==> p.role == spec.role && p.id in spec.ids
  {
    PlacesMembers([spec], p);
    assert [spec][0] == spec;
  }

  lemma NewEntry(world: World, held: set<Party>, s: Exchange, asked: seq<Party>, role: string)
    requires Asked(world, held, s, asked)
    ensures Asked(world, held, s.(response := s.response[role := map[]]), asked)
    ensures forall q :: Answered(s.response[role := map[]], q) <==> q.role != role && Answered(s.response, q)
  {
  }

  /** A job's parties are asked entry by entry; heard in the end are those in the last entry of their role. */
  lemma {:induction false} AskedEntries(world: World, held: set<Party>, specs: seq<PartySpec>)
    ensures var s := AskEntries(world, Exchange(held, map[]), specs);
      && Asked(world, held, s, Places(specs))
      && forall p :: Answered(s.response, p) <==> LastEntryHas(p, specs)
  {
    if specs != [] {
      hide Asked, Places, AskList;
      var front, last := specs[..|specs| - 1], specs[|specs| - 1];
      AskedEntries(world, held, front);
      PlacesSnoc(specs);
      var before := AskEntries(world, Exchange(held, map[]), front);
      NewEntry(world, held, before, Places(front), last.role);
      AskedList(world, held, before.(response := before.response[last.role := map[]]), Places(front), Places([last]));
      forall p ensures p in Places([last]) <==> p.role == last.role && p.id in last.ids {
        OneEntry(last, p);
      }
    }
  }

  // ------------------------------------------------------------------
  // All or nothing
  // ------------------------------------------------------------------

  /** The (role, party) pairs that answered SUCCESS. */
  function OkParties(r: Response): set<Party> {
    set p | p in AnsweredParties(r) && CodeOf(r, p) == Ok
  }

  function Released(world: World, held: set<Party>, asked: set<Party>): set<Party> {
    set p | p in asked && GivesBack(world(p), p in held)
  }

  /** Who holds the resource in the end: a failed APPLY is followed by a RETURN to those that answered SUCCESS. */
  function Settle(world: World, s: Exchange): set<Party> {
    if AllOk(s.response) then s.held else s.held - Released(world, s.held, OkParties(s.response))
  }

  /** A party that needs the resource answers SUCCESS exactly if this APPLY gave it to it, it was asked once and the
      reply arrived. */
  lemma OkMeansTaken(world: World, held: set<Party>, s: Exchange, asked: seq<Party>, p: Party)
    requires Asked(world, held, s, asked) && Answered(s.response, p) && world(p).needs
    ensures p in OkParties(s.response)
      <==> p in Takers(world, held, asked) && multiset(asked)[p] == 1 && world(p).link == Replied
  {
    assert p in AnsweredParties(s.response);
    assert multiset(asked)[p] >= 1;
  }

  /** Nobody loses what it held before, not even when it refuses because of that. */
  lemma NobodyLoses(world: World, held: set<Party>, s: Exchange, asked: seq<Party>)
    requires Asked(world, held, s, asked)
    ensures held <= Settle(world, s) <= held + Takers(world, held, asked)
  {
    forall p | p in held ensures p in Settle(world, s) {
      if p in OkParties(s.response) && world(p).needs {
        OkMeansTaken(world, held, s, asked, p);
        assert false;
      }
    }
  }

  /** After a failed APPLY nobody holds more than before exactly if each party it reached answered SUCCESS and gave the
      resource back. */
  lemma FailureLeavesNoneIff(world: World, held: set<Party>, s: Exchange, asked: seq<Party>)
    requires Asked(world, held, s, asked) && !AllOk(s.response)
    ensures Settle(world, s) == held
      <==> forall p :: p in Takers(world, held, asked) ==> p in OkParties(s.response) && world(p).released
  {
    NobodyLoses(world, held, s, asked);
    forall p | p in Takers(world, held, asked)
      ensures p in Settle(world, s) <==> !(p in OkParties(s.response) && world(p).released)
    {
      assert p in s.held && p !in held;
    }
  }

  // ------------------------------------------------------------------
  // A task's parties
  // ------------------------------------------------------------------

  function TaskApply(world: World, held: set<Party>, rows: seq<Party>): Exchange {
    AskList(world, Exchange(held, map[]), rows)
  }

  lemma TaskAsked(world: World, held: set<Party>, rows: seq<Party>)
    requires Distinct(rows)
    ensures Asked(world, held, TaskApply(world, held, rows), rows)
    ensures AnsweredParties(TaskApply(world, held, rows).response) == Elements(rows)
    ensures forall p :: p in rows ==> multiset(rows)[p] == 1
  {
    var s := Exchange(held, map[]);
    assert Asked(world, held, s, []);
    AskedList(world, held, s, [], rows);
    assert [] + rows == rows;
    forall p | p in AnsweredParties(TaskApply(world, held, rows).response) ensures p in rows {
    }
    forall p | p in rows ensures p in AnsweredParties(TaskApply(world, held, rows).response) {
    }
    forall p | p in rows ensures multiset(rows)[p] == 1 {
      DistinctOnce(rows, p);
    }
  }

  lemma {:induction false} DistinctOnce<T>(s: seq<T>, x: T)
    requires Distinct(s)
    ensures multiset(s)[x] == if x in s then 1 else 0
  {
    if s != [] {
      var front, last := s[..|s| - 1], s[|s| - 1];
      DistinctFront(s);
      assert s == front + [last];
      DistinctOnce(front, x);
    }
  }

  /** A task's resources are all or nothing.  The apply succeeds exactly if every row's party grants it, and then all
      that need something hold it; a party that holds it already refuses.  After a failure nobody holds more than
      before exactly if no reply of a party that took it was lost, and each of those gave it back.  Nobody ever loses
      what it held. */
  lemma TaskAllOrNothing(world: World, held: set<Party>, rows: seq<Party>)
    requires Distinct(rows) && rows != []
    ensures var s := TaskApply(world, held, rows);
      var after := Settle(world, s);
      && (AllOk(s.response) <==> forall p :: p in rows ==> Grants(world, held, p))
      && (AllOk(s.response) ==> forall p :: p in rows && world(p).needs ==> p in after && p !in held)
      && (!AllOk(s.response) ==>
            (after == held <==> forall p :: p in rows && Gets(world, held, p) ==> HandsBack(world, p)))
      && held <= after && forall p :: p in after - held ==> p in rows && Gets(world, held, p)
  {
    TaskAsked(world, held, rows);
    TaskAnswers(world, held, rows);
    var s := TaskApply(world, held, rows);
    AllOkIff(s.response, Elements(rows));
    NobodyLoses(world, held, s, rows);
    hide AskList, AllOk, Asked, HeardCode, Settle, Accepts, Grants, OkParties, TaskApply;
    assert rows[0] in Elements(rows);
    if AllOk(s.response) {
      forall p | p in rows && world(p).needs ensures p in Settle(world, s) && p !in held {
        GrantedIsTaken(world, held, s, rows, p);
      }
    } else {
      FailureLeavesNoneIff(world, held, s, rows);
    }
  }

  lemma TaskAnswers(world: World, held: set<Party>, rows: seq<Party>)
    requires Distinct(rows)
    ensures var r := TaskApply(world, held, rows).response;
      && (forall p :: p in rows ==> (Accepts(r, p) <==> Grants(world, held, p)))
      && (forall p :: p in Takers(world, held, rows) ==> (p in OkParties(r) <==> world(p).link == Replied))
  {
    TaskAsked(world, held, rows);
    var s := TaskApply(world, held, rows);
    hide TaskApply, Distinct;
    forall p | p in rows
      ensures Accepts(s.response, p) <==> Grants(world, held, p)
      ensures p in Takers(world, held, rows) ==> (p in OkParties(s.response) <==> world(p).link == Replied)
    {
      assert p in AnsweredParties(s.response);
    }
  }

  lemma GrantedIsTaken(world: World, held: set<Party>, s: Exchange, asked: seq<Party>, p: Party)
    requires Asked(world, held, s, asked) && AllOk(s.response) && Answered(s.response, p) && world(p).needs
    ensures p in Settle(world, s) && p !in held
  {
    assert p in AnsweredParties(s.response);
    OkMeansTaken(world, held, s, asked, p);
  }

  // ------------------------------------------------------------------
  // A job's parties
  // ------------------------------------------------------------------

  function JobApply(world: World, held: set<Party>, specs: seq<PartySpec>): Exchange {
    AskEntries(world, Exchange(held, map[]), specs)
  }

  /** Listed once in all. */
  predicate Once(specs: seq<PartySpec>, p: Party) {
    multiset(Places(specs))[p] == 1
  }

  /** A party that took the job's resources is heard to have them, and gives them back. */
  predicate Undone(world: World, specs: seq<PartySpec>, p: Party) {
    LastEntryHas(p, specs) && Once(specs, p) && HandsBack(world, p)
  }

  /** For a job, too, nobody loses anything, and a failure leaves nothing behind exactly if every party that took the
      resource was listed once, in the last entry of its role, was heard and gave it back.  A success says that all
      parties in the last entries of their roles hold it. */
  lemma JobAllOrNothing(world: World, held: set<Party>, specs: seq<PartySpec>)
    ensures var s := JobApply(world, held, specs);
      var after := Settle(world, s);
      && held <= after && (forall p :: p in after - held ==> p in Places(specs) && Gets(world, held, p))
      && (AllOk(s.response) ==> forall p :: LastEntryHas(p, specs) && world(p).needs ==> p in after && p !in held)
      && (!AllOk(s.response) ==>
            (after == held <==> forall p :: p in Places(specs) && Gets(world, held, p) ==> Undone(world, specs, p)))
  {
    AskedEntries(world, held, specs);
    var s, asked := JobApply(world, held, specs), Places(specs);
    hide AskEntries, LastEntryHas, Places, AllOk, Settle, Asked;
    NobodyLoses(world, held, s, asked);
    if AllOk(s.response) {
      forall p | LastEntryHas(p, specs) && world(p).needs ensures p in Settle(world, s) && p !in held {
        GrantedIsTaken(world, held, s, asked, p);
      }
    } else {
      FailureLeavesNoneIff(world, held, s, asked);
      forall p | p in Takers(world, held, asked)
        ensures p in OkParties(s.response) && world(p).released <==> Undone(world, specs, p)
      {
        if Answered(s.response, p) {
          OkMeansTaken(world, held, s, asked, p);
        } else {
          assert p !in AnsweredParties(s.response);
        }
      }
    }
  }

  /** The scheduler hears of an exceeded limit exactly from a party in the last entry of its role that exceeds it and
      replies. */
  lemma LimitIff(world: World, held: set<Party>, specs: seq<PartySpec>)
    ensures var r := JobApply(world, held, specs).response;
      (exists p :: Answered(r, p) && CodeOf(r, p) == ResourceLimitExceeded)
      <==> exists p :: LastEntryHas(p, specs) && world(p).link == Replied && world(p).over
  {
    AskedEntries(world, held, specs);
    var s := JobApply(world, held, specs);
    hide AskEntries, LastEntryHas, Places;
    forall p | LastEntryHas(p, specs)
      ensures Answered(s.response, p)
      ensures CodeOf(s.response, p) == ResourceLimitExceeded <==> world(p).link == Replied && world(p).over
    {
    }
  }

  /** A job always needs its resources, if only to be recorded as using them. */
  ghost predicate AllNeed(world: World) {
    forall p :: world(p).needs
  }

  /** If the scheduler takes the APPLY for a success, every party of the job holds the resource. */
  ghost predicate SuccessMeansAll(world: World, held: set<Party>, specs: seq<PartySpec>) {
    AllOk(JobApply(world, held, specs).response) ==> Elements(Places(specs)) <= Settle(world, JobApply(world, held, specs))
  }

  /** Somebody is heard, and nobody who is heard was asked twice. */
  ghost predicate CanSucceed(specs: seq<PartySpec>) {
    (exists p :: LastEntryHas(p, specs)) && forall p :: LastEntryHas(p, specs) ==> Once(specs, p)
  }

  lemma SuccessNeeds(world: World, held: set<Party>, specs: seq<PartySpec>)
    requires AllNeed(world) && AllOk(JobApply(world, held, specs).response)
    ensures CanSucceed(specs)
  {
    AskedEntries(world, held, specs);
    var s := JobApply(world, held, specs);
    hide AskEntries, LastEntryHas, Places, Asked, Takers;
    var q :| q in AnsweredParties(s.response);
    assert LastEntryHas(q, specs);
    forall p | LastEntryHas(p, specs) ensures Once(specs, p) {
      assert Answered(s.response, p) && p in AnsweredParties(s.response);
      OkMeansTaken(world, held, s, Places(specs), p);
    }
  }

  /** Everybody grants the APPLY except p, where the job finds too little left. */
  function AllBut(p: Party): World {
    q => Local(true, false, q != p, Replied, true)
  }

  lemma AllButSucceeds(specs: seq<PartySpec>, p: Party)
    requires CanSucceed(specs) && PartyIn(p, specs) && !LastEntryHas(p, specs)
    ensures !SuccessMeansAll(AllBut(p), {}, specs)
  {
    AskedEntries(AllBut(p), {}, specs);
    var s := JobApply(AllBut(p), {}, specs);
    hide AskEntries, LastEntryHas, Places;
    forall q | q in AnsweredParties(s.response) ensures CodeOf(s.response, q) == Ok {
      assert LastEntryHas(q, specs) && Once(specs, q);
    }
    var q :| LastEntryHas(q, specs);
    assert Answered(s.response, q) && q in AnsweredParties(s.response);
    PlacesMembers(specs, p);
    assert p in Elements(Places(specs)) && p !in s.held;
  }

  /** Success means that every party of the job holds the resource, in every situation, exactly if the last entry of
      each role lists all its parties, or no success is possible at all. */
  lemma JobSuccessMeansAllIff(specs: seq<PartySpec>)
    ensures (forall world, held :: AllNeed(world) ==> SuccessMeansAll(world, held, specs))
      <==> (CanSucceed(specs) ==> LastEntriesCover(specs))
  {
    LastEntryMeaning(specs);
    hide LastEntryHas, LastEntriesCover, AllOk, PartyIn, CanSucceed;
    if CanSucceed(specs) ==> LastEntriesCover(specs) {
      forall world, held | AllNeed(world) ensures SuccessMeansAll(world, held, specs) {
        if AllOk(JobApply(world, held, specs).response) {
          SuccessNeeds(world, held, specs);
          JobAllOrNothing(world, held, specs);
          forall p | p in Places(specs) ensures p in Settle(world, JobApply(world, held, specs)) {
            PlacesMembers(specs, p);
          }
        }
      }
    } else {
      var p :| PartyIn(p, specs) && !LastEntryHas(p, specs);
      AllButSucceeds(specs, p);
      assert AllNeed(AllBut(p));
    }
  }

  /** Two guests in two entries: the first refuses, nobody hears it, and the job is said to have its resources. */
  lemma UnheardRefusal()
    ensures var specs, first := [PartySpec("guest", ["1"]), PartySpec("guest", ["2"])], Party("guest", "1");
      var s := JobApply(AllBut(first), {}, specs);
      AllOk(s.response) && first in Places(specs) && first !in Settle(AllBut(first), s)
  {
    var specs, first := [PartySpec("guest", ["1"]), PartySpec("guest", ["2"])], Party("guest", "1");
    TwoGuests();
    AllButSucceeds(specs, first);
    AskedEntries(AllBut(first), {}, specs);
    NobodyLoses(AllBut(first), {}, JobApply(AllBut(first), {}, specs), Places(specs));
    PlacesMembers(specs, first);
  }

  lemma TwoGuests()
    ensures var specs, first := [PartySpec("guest", ["1"]), PartySpec("guest", ["2"])], Party("guest", "1");
      CanSucceed(specs) && PartyIn(first, specs) && !LastEntryHas(first, specs)
  {
    var one, two := PartySpec("guest", ["1"]), PartySpec("guest", ["2"]);
    var first, second := Party("guest", "1"), Party("guest", "2");
    var specs := [one, two];
    assert specs[..1] == [one] && specs[1..] == [two];
    assert specs[0] == one && PartyIn(first, specs);
    assert Places([one]) == [first] by {
      assert one.ids[0] == "1";
    }
    assert Places([two]) == [second] by {
      assert two.ids[0] == "2";
    }
    PlacesSnoc(specs);
    assert Places(specs) == [first, second];
    assert LastEntryHas(second, specs);
    forall p | LastEntryHas(p, specs) ensures Once(specs, p) {
      LastEntryIs(p, specs);
      assert p.role == "guest" && p.id in two.ids;
    }
  }

  // ------------------------------------------------------------------
  // Rolling back
  // ------------------------------------------------------------------

  /** One entry per party, as the rollback lists are built. */
  function Single(p: Party): PartySpec {
    PartySpec(p.role, [p.id])
  }

  lemma {:induction false} PlacesOfSingles(specs: seq<PartySpec>, parties: seq<Party>, p: Party)
    requires |specs| == |parties| && forall i :: 0 <= i < |specs| ==> specs[i] == Single(parties[i])
    ensures Places(specs + [Single(p)]) == Places(specs) + [p]
    ensures Places(specs) == parties
  {
    if specs == [] {
      assert [Single(p)][1..] == [];
      assert Places([Single(p)]) == [p];
      assert specs + [Single(p)] == [Single(p)];
    } else {
      var all := specs + [Single(p)];
      assert all[1..] == specs[1..] + [Single(p)];
      PlacesOfSingles(specs[1..], parties[1..], p);
      assert specs[0] == Single(parties[0]);
      assert Places(specs) == [parties[0]] + Places(specs[1..]);
      assert Places(all) == [parties[0]] + Places(all[1..]);
    }
  }

  /** The rows of the tasks at the given parties, by the nested loops of get_tasks_by_task_id: for each listed party,
      every row of that role and party. */
  function Matching(rows: seq<Party>, p: Party): seq<Party> {
    if rows == [] then []
    else Matching(rows[..|rows| - 1], p) + if rows[|rows| - 1] == p then [rows[|rows| - 1]] else []
  }

  function Filtered(rows: seq<Party>, places: seq<Party>): seq<Party> {
    if places == [] then [] else Filtered(rows, places[..|places| - 1]) + Matching(rows, places[|places| - 1])
  }

  lemma {:induction false} MatchingIs(rows: seq<Party>, p: Party)
    requires Distinct(rows)
    ensures Matching(rows, p) == if p in rows then [p] else []
  {
    hide Distinct;
    if rows != [] {
      DistinctFront(rows);
      MatchingIs(rows[..|rows| - 1], p);
    }
  }

  /** The role filter addresses each listed party that has a row exactly once, in the order of the list. */
  lemma {:induction false} FilteredExactly(rows: seq<Party>, places: seq<Party>)
    requires Distinct(rows) && Distinct(places)
    ensures Distinct(Filtered(rows, places))
    ensures forall p :: p in Filtered(rows, places) <==> p in places && p in rows
  {
    hide Distinct, Matching;
    if places != [] {
      var front, last := places[..|places| - 1], places[|places| - 1];
      DistinctFront(places);
      FilteredExactly(rows, front);
      MatchingIs(rows, last);
      if last in rows {
        DistinctAppend(Filtered(rows, front), last);
      } else {
        assert Filtered(rows, front) + [] == Filtered(rows, front);
      }
    } else {
      assert Filtered(rows, places) == places;
    }
  }

  /** A list of parties that all have a row is addressed as it is. */
  lemma {:induction false} FilteredAll(rows: seq<Party>, places: seq<Party>)
    requires Distinct(rows) && forall i :: 0 <= i < |places| ==> places[i] in rows
    ensures Filtered(rows, places) == places
  {
    hide Distinct, Matching;
    if places != [] {
      var front, last := places[..|places| - 1], places[|places| - 1];
      FilteredAll(rows, front);
      MatchingIs(rows, last);
      assert front + [last] == places;
    }
  }

  /** Sorting the answers of a failed APPLY: whom to roll back, and whether a limit was exceeded. */
  datatype Sorted = Sorted(rollback: seq<PartySpec>, ok: seq<Party>, limit: bool)

  ghost predicate SortedUpTo(r: Response, done: set<Party>, s: Sorted) {
    && Places(s.rollback) == s.ok && Distinct(s.ok)
    && |s.rollback| == |s.ok| && (forall i :: 0 <= i < |s.ok| ==> s.rollback[i] == Single(s.ok[i]))
    && (forall p :: p in s.ok <==> p in done && p in OkParties(r))
    && (s.limit <==> exists p :: p in done && Answered(r, p) && CodeOf(r, p) == ResourceLimitExceeded)
  }

  lemma SortOne(r: Response, done: set<Party>, s: Sorted, p: Party)
    requires SortedUpTo(r, done, s) && p !in done && Answered(r, p)
    ensures var c := CodeOf(r, p);
      SortedUpTo(r, done + {p},
        if c == Ok then Sorted(s.rollback + [Single(p)], s.ok + [p], s.limit)
        else if c == ResourceLimitExceeded then s.(limit := true) else s)
  {
    assert p in AnsweredParties(r);
    PlacesOfSingles(s.rollback, s.ok, p);
    var done' := done + {p};
    assert p in done';
    if s.limit {
      var q :| q in done && Answered(r, q) && CodeOf(r, q) == ResourceLimitExceeded;
      assert q in done';
    }
  }

  /** The loop over one role's answers. */
  method SortRole(r: Response, role: string, ghost done: set<Party>, before: Sorted) returns (s: Sorted)
    requires role in r && SortedUpTo(r, done, before) && forall p :: p in done ==> p.role != role
    ensures SortedUpTo(r, done + (set id | id in r[role] :: Party(role, id)), s)
  {
    s := before;
    var rest := r[role].Keys;
    ghost var now := done;
    while rest != {}
      invariant rest <= r[role].Keys && now == done + set id | id in r[role].Keys - rest :: Party(role, id)
      invariant SortedUpTo(r, now, s)
    {
      hide SortedUpTo;
      var id :| id in rest;
      var p := Party(role, id);
      SortOne(r, now, s, p);
      match r[role][id] {
        case Ok => s := Sorted(s.rollback + [Single(p)], s.ok + [p], s.limit);
        case ResourceLimitExceeded => s := s.(limit := true);
        case Refusal(_) =>
      }
      assert r[role].Keys - (rest - {id}) == (r[role].Keys - rest) + {id};
      rest := rest - {id};
      now := now + {p};
    }
    assert r[role].Keys - {} == r[role].Keys;
  }

  /** The rollback list has exactly the parties that answered SUCCESS, each once. */
  method SortAnswers(r: Response) returns (s: Sorted)
    ensures SortedUpTo(r, AnsweredParties(r), s)
  {
    s := Sorted([], [], false);
    var rest := r.Keys;
    ghost var now := {};
    while rest != {}
      invariant rest <= r.Keys && now == set role, id | role in r.Keys - rest && id in r[role] :: Party(role, id)
      invariant SortedUpTo(r, now, s)
    {
      var role :| role in rest;
      s := SortRole(r, role, now, s);
      assert r.Keys - (rest - {role}) == (r.Keys - rest) + {role};
      rest := rest - {role};
      now := now + set id | id in r[role] :: Party(role, id);
    }
    assert r.Keys - {} == r.Keys;
  }

  /** The RETURN, party by party. */
  function ReturnList(world: World, held: set<Party>, ps: seq<Party>): set<Party> {
    if ps == [] then held
    else
      var before, last := ReturnList(world, held, ps[..|ps| - 1]), ps[|ps| - 1];
      if GivesBack(world(last), last in before) then before - {last} else before
  }

  lemma {:induction false} ReturnListIs(world: World, held: set<Party>, ps: seq<Party>)
    ensures ReturnList(world, held, ps) == held - Released(world, held, Elements(ps))
  {
    if ps != [] {
      var front, last := ps[..|ps| - 1], ps[|ps| - 1];
      ReturnListIs(world, held, front);
      assert Elements(ps) == Elements(front) + {last};
    }
  }

  /** The scheduler's commands, and the parties that hold the resource. */
  class ResourceScheduler {
    const parties: seq<PartySpec>
    const rows: seq<Party>
    var held: set<Party>
    var returned: seq<seq<Party>>

    /** parties are the job's, rows the task's party rows; returned logs whom each RETURN addressed. */
    constructor (parties: seq<PartySpec>, rows: seq<Party>, held: set<Party>)
      ensures this.parties == parties && this.rows == rows && this.held == held && returned == []
    {
      this.parties, this.rows, this.held, returned := parties, rows, held, [];
    }

    /** One party hears an APPLY. */
    method AskParty(world: World, p: Party, response: Response) returns (r: Response)
      modifies this`held
      ensures Exchange(held, r) == AskOne(world, Exchange(old(held), response), p)
    {
      var here, inUse := world(p), p in held;
      if Takes(here, inUse) {
        held := held + {p};
      }
      var answers := Lookup(response, p.role, map[]);
      r := response[p.role := answers[p.id := HeardCode(here, inUse)]];
    }

    /** job_command with an APPLY: every entry of a role starts with no answers. */
    method JobCommandApply(world: World) returns (response: Response)
      modifies this`held
      ensures Exchange(held, response) == JobApply(world, old(held), parties)
    {
      response := map[];
      assert parties[..0] == [];
      for i := 0 to |parties|
        invariant Exchange(held, response) == AskEntries(world, Exchange(old(held), map[]), parties[..i])
      {
        var entry := parties[i];
        response := response[entry.role := map[]];
        ghost var start := Exchange(held, response);
        ghost var places := Places([entry]);
        EntryPlaces(entry);
        assert places[..0] == [];
        for k := 0 to |entry.ids|
          invariant Exchange(held, response) == AskList(world, start, places[..k])
        {
          hide AskOne;
          assert places[..k + 1][..k] == places[..k];
          response := AskParty(world, Party(entry.role, entry.ids[k]), response);
        }
        assert places[..|places|] == places;
        assert parties[..i + 1][..i] == parties[..i];
      }
      assert parties[..|parties|] == parties;
    }

    /** task_command with an APPLY: answers of one role are kept together. */
    method TaskCommandApply(world: World) returns (response: Response)
      modifies this`held
      ensures Exchange(held, response) == TaskApply(world, old(held), rows)
    {
      response := map[];
      assert rows[..0] == [];
      for i := 0 to |rows|
        invariant Exchange(held, response) == AskList(world, Exchange(old(held), map[]), rows[..i])
      {
        assert rows[..i + 1][..i] == rows[..i];
        response := AskParty(world, rows[i], response);
      }
      assert rows[..|rows|] == rows;
    }

    /** A RETURN to the listed parties. */
    method Return(world: World, addressed: seq<Party>)
      modifies this
      ensures held == old(held) - Released(world, old(held), Elements(addressed))
      ensures returned == old(returned) + [addressed]
    {
      assert addressed[..0] == [];
      for i := 0 to |addressed|
        invariant held == ReturnList(world, old(held), addressed[..i]) && returned == old(returned)
      {
        assert addressed[..i + 1][..i] == addressed[..i];
        if GivesBack(world(addressed[i]), addressed[i] in held) {
          held := held - {addressed[i]};
        }
      }
      assert addressed[..|addressed|] == addressed;
      ReturnListIs(world, old(held), addressed);
      returned := returned + [addressed];
    }

    /** rollback_job_resource: a RETURN to those that answered SUCCESS, if any; limit says that the job is to be stopped
        as FAILED. */
    method RollbackJobResource(world: World, response: Response) returns (limit: bool)
      modifies this
      ensures held == old(held) - Released(world, old(held), OkParties(response))
      ensures limit <==> exists p :: Answered(response, p) && CodeOf(response, p) == ResourceLimitExceeded
      ensures RolledBack(old(returned), returned, OkParties(response))
    {
      var sorted := SortAnswers(response);
      AllSorted(response, sorted);
      if sorted.rollback != [] {
        Return(world, Places(sorted.rollback));
      } else {
        NoneReleased(world, held);
      }
      limit := sorted.limit;
    }

    /** The rollback of apply_task_resource goes through the role filter. */
    method RollbackTaskResource(world: World, response: Response)
      requires Distinct(rows) && AnsweredParties(response) <= Elements(rows)
      modifies this
      ensures held == old(held) - Released(world, old(held), OkParties(response))
      ensures RolledBack(old(returned), returned, OkParties(response))
    {
      var sorted := SortAnswers(response);
      AllSorted(response, sorted);
      if sorted.rollback != [] {
        var addressed := GetTasksByTaskId(Places(sorted.rollback));
        AllHaveRows(sorted.ok, response, rows);
        FilteredAll(rows, sorted.ok);
        Return(world, addressed);
      } else {
        NoneReleased(world, held);
      }
    }

    /** apply_job_resource */
    method ApplyJobResource(world: World) returns (ok: bool, limit: bool)
      modifies this
      ensures var s := JobApply(world, old(held), parties);
        && (ok <==> AllOk(s.response)) && held == Settle(world, s)
        && (if ok then returned == old(returned) else RolledBack(old(returned), returned, OkParties(s.response)))
      ensures limit <==> !ok && exists p :: LastEntryHas(p, parties) && world(p).link == Replied && world(p).over
      ensures old(held) <= held
      ensures ok ==> forall p :: LastEntryHas(p, parties) && world(p).needs ==> p in held && p !in old(held)
      ensures !ok ==> (held == old(held)
        <==> forall p :: p in Places(parties) && Gets(world, old(held), p) ==> Undone(world, parties, p))
    {
      limit := false;
      JobAllOrNothing(world, held, parties);
      LimitIff(world, held, parties);
      hide Gets, JobApply, Places, Undone, LastEntryHas, Takers, Released, OkParties, AllOk;
      var response := JobCommandApply(world);
      ok := ReturnFederatedResponse(response);
      if !ok {
        limit := RollbackJobResource(world, response);
      }
    }

    /** apply_task_resource; None is the failed unpacking of an APPLY to a task without rows. */
    method ApplyTaskResource(world: World) returns (ok: Option<bool>)
      requires Distinct(rows)
      modifies this
      ensures ok.None? <==> rows == []
      ensures rows == [] ==> held == old(held) && returned == old(returned)
      ensures rows != [] ==>
        var s := TaskApply(world, old(held), rows);
        && ok == Some(AllOk(s.response)) && held == Settle(world, s)
        && (if ok == Some(true) then returned == old(returned)
            else RolledBack(old(returned), returned, OkParties(s.response)))
      ensures old(held) <= held
      ensures ok == Some(true) <==> rows != [] && forall p :: p in rows ==> Grants(world, old(held), p)
      ensures ok == Some(true) ==> forall p :: p in rows && world(p).needs ==> p in held && p !in old(held)
      ensures ok == Some(false) ==> (held == old(held)
        <==> forall p :: p in rows && Gets(world, old(held), p) ==> HandsBack(world, p))
    {
      if rows == [] {
        return None;
      }
      TaskAllOrNothing(world, held, rows);
      TaskAsked(world, held, rows);
      hide TaskApply, Grants, Gets, Takers, Distinct, Released, OkParties, AllOk, Asked;
      var response := TaskCommandApply(world);
      var success := ReturnFederatedResponse(response);
      if !success {
        RollbackTaskResource(world, response);
      }
      return Some(success);
    }

    /** get_tasks_by_task_id with a role filter. */
    method GetTasksByTaskId(places: seq<Party>) returns (found: seq<Party>)
      ensures found == Filtered(rows, places)
    {
      found := [];
      assert places[..0] == [];
      for i := 0 to |places|
        invariant found == Filtered(rows, places[..i])
      {
        assert places[..i + 1][..i] == places[..i];
        ghost var before := found;
        assert rows[..0] == [];
        for j := 0 to |rows|
          invariant found == before + Matching(rows[..j], places[i])
        {
          assert rows[..j + 1][..j] == rows[..j];
          if rows[j] == places[i] {
            found := found + [rows[j]];
          }
        }
        assert rows[..|rows|] == rows;
      }
      assert places[..|places|] == places;
    }
  }

  lemma NoneReleased(world: World, held: set<Party>)
    ensures Released(world, held, {}) == {}
  {
  }

  /** One more RETURN was sent, to exactly the given parties, each once; none if there are none. */
  predicate RolledBack(before: seq<seq<Party>>, after: seq<seq<Party>>, to: set<Party>) {
    if to == {} then after == before
    else
      && |after| == |before| + 1 && after[..|before|] == before
      && Distinct(after[|before|]) && Elements(after[|before|]) == to
  }

  lemma EntryPlaces(entry: PartySpec)
    ensures |Places([entry])| == |entry.ids|
    ensures forall k :: 0 <= k < |entry.ids| ==> Places([entry])[k] == Party(entry.role, entry.ids[k])
  {
    assert [entry][0] == entry && Places([entry][1..]) == [];
  }

  lemma AllHaveRows(ok: seq<Party>, r: Response, rows: seq<Party>)
    requires Elements(ok) == OkParties(r) && AnsweredParties(r) <= Elements(rows)
    ensures forall i :: 0 <= i < |ok| ==> ok[i] in rows
  {
    forall i | 0 <= i < |ok| ensures ok[i] in rows {
      assert ok[i] in Elements(ok);
      assert ok[i] in AnsweredParties(r);
      assert ok[i] in Elements(rows);
    }
  }

  lemma AllSorted(r: Response, s: Sorted)
    requires SortedUpTo(r, AnsweredParties(r), s)
    ensures Places(s.rollback) == s.ok && Distinct(s.ok) && Elements(s.ok) == OkParties(r)
    ensures s.rollback == [] <==> OkParties(r) == {}
    ensures s.limit <==> exists p :: Answered(r, p) && CodeOf(r, p) == ResourceLimitExceeded
  {
    assert s.rollback == [] <==> s.ok == [];
    if s.ok != [] {
      assert s.ok[0] in Elements(s.ok);
    }
    forall p | Answered(r, p) ensures p in AnsweredParties(r) {
    }
  }
}
