/** The run in which a repeated request is refused: its statement began before the first request committed, so it finds
    the key taken and does not see the row. */
module MissedReplay {
  import opened Text
  import opened Pipeline
  import opened FlowKept

  const REQUEST := Request("client-a", "import-0001", "normal", 25)

  /** Transaction 8 has begun first, and transaction 7 is in the given phase. */
  function Racing(first: Creator, nextId: Id): State {
    Empty().(creators := map[8 := Snapshot(REQUEST, None, 0), 7 := first], nextId := nextId)
  }

  function Committed(second: Creator): State {
    State(0, 2, map[0 := NewImport(REQUEST)], map[KeyOf(REQUEST) := 0], map[1 := NewEvent(REQUEST, 0, 0)],
          Broker(map[], {}, map[], {}, {}), map[8 := second, 7 := NoTransaction], map[], map[],
          Creations(map[0 := 1], [Reply(KeyOf(REQUEST), 0, false)]), Publications(map[1 := 0], {}),
          Work(multiset{}, map[0 := []], {}, {}))
  }

  lemma Race0()
    ensures Goes(Empty(), ByCreator(8, Begin(REQUEST)), Empty().(creators := map[8 := Snapshot(REQUEST, None, 0)]))
  {
  }

  lemma Race1()
    ensures Goes(Empty().(creators := map[8 := Snapshot(REQUEST, None, 0)]), ByCreator(7, Begin(REQUEST)),
                 Racing(Snapshot(REQUEST, None, 0), 0))
  {
  }

  lemma Race2()
    ensures Goes(Racing(Snapshot(REQUEST, None, 0), 0), ByCreator(7, Insert), Racing(Inserted(REQUEST, 0, 0), 1))
  {
  }

  lemma Race3()
    ensures Goes(Racing(Inserted(REQUEST, 0, 0), 1), ByCreator(7, WriteEvent), Racing(Written(REQUEST, 0, 1, 0), 2))
  {
  }

  lemma Race4()
    ensures Goes(Racing(Written(REQUEST, 0, 1, 0), 2), ByCreator(7, Commit(true, true)),
        Committed(Snapshot(REQUEST, None, 0)))
  {
  }

  lemma UpToConflict()
    ensures Reachable(Committed(Snapshot(REQUEST, None, 0)))
  {
    Begun();
    Race0(); Onward(Empty(), ByCreator(8, Begin(REQUEST)), Empty().(creators := map[8 := Snapshot(REQUEST, None, 0)]));
    Race1(); Onward(Empty().(creators := map[8 := Snapshot(REQUEST, None, 0)]), ByCreator(7, Begin(REQUEST)),
        Racing(Snapshot(REQUEST, None, 0), 0));
    Race2(); Onward(Racing(Snapshot(REQUEST, None, 0), 0), ByCreator(7, Insert), Racing(Inserted(REQUEST, 0, 0), 1));
    Race3(); Onward(Racing(Inserted(REQUEST, 0, 0), 1), ByCreator(7, WriteEvent), Racing(Written(REQUEST, 0, 1, 0), 2));
    Race4(); Onward(Racing(Written(REQUEST, 0, 1, 0), 2), ByCreator(7, Commit(true, true)),
        Committed(Snapshot(REQUEST, None, 0)));
  }

  /** The row for the key is there, and the second request still ends without an answer. */
  lemma ARepeatedRequestCanFail()
    ensures var s := Committed(Snapshot(REQUEST, None, 0));
            && Reachable(s) && KeyOf(REQUEST) in s.index && CreatorOf(s, 8).Snapshot? && CreatorOf(s, 8).req == REQUEST
            && CreatorEnabled(s, 8, Conflict) && CreatorApply(s, 8, Conflict) == Committed(NoTransaction)
            && !CreatorEnabled(s, 8, Insert)
  {
    UpToConflict();
  }
}
