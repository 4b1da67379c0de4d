/** Presence reconciliation: count the live connections per declared CC and
    report the CCs of the previous count that have no connection now. */
module Presence {
  import opened Optional
  import opened Subscriptions
  import opened Connections

  /** The value kept under the "connections" key: connections per CC. */
  type Snapshot = map<Topic, nat>

  /** The connections among `cs` that declare `t`. */
  ghost function Declaring(cs: set<Connection>, t: Topic): set<Connection>
    reads cs
  {
    set c | c in cs && c.cc == Some(t)
  }

  /** The truthy CCs declared by some connection among `cs`. */
  ghost function LiveTopics(cs: set<Connection>): set<Topic>
    reads cs
  {
    set c | c in cs && Truthy(c.cc) :: c.cc.value
  }

  /** The snapshot the presence tick should compute for `cs`: each truthy
      declared CC with the number of connections declaring it. */
  ghost function Census(cs: set<Connection>): Snapshot
    reads cs
  {
    map t | t in LiveTopics(cs) :: |Declaring(cs, t)|
  }

  /** Every CC in a census is non-empty and counts at least one connection,
      so `!connections[cc]` holds exactly for the CCs it lacks. */
  lemma CensusPositive(cs: set<Connection>)
    ensures forall t :: t in Census(cs) ==> t != "" && Census(cs)[t] >= 1
  {
    forall t | t in Census(cs) ensures t != "" && Census(cs)[t] >= 1 {
      LiveIffDeclared(cs, t);
    }
  }

  /** Adding a connection adds it to the set declaring its own CC only. */
  lemma DeclaringAdd(done: set<Connection>, c: Connection, t: Topic)
    ensures Declaring(done + {c}, t) == Declaring(done, t) + (if c.cc == Some(t) then {c} else {})
  {
  }

  /** Adding a connection adds its CC to the live CCs when that CC is truthy. */
  lemma LiveTopicsAdd(done: set<Connection>, c: Connection)
    ensures LiveTopics(done + {c}) == LiveTopics(done) + (if Truthy(c.cc) then {c.cc.value} else {})
  {
  }

  /** A non-empty CC is live exactly when some connection declares it. */
  lemma LiveIffDeclared(cs: set<Connection>, t: Topic)
    requires t != ""
    ensures t in LiveTopics(cs) <==> Declaring(cs, t) != {}
  {
    if t in LiveTopics(cs) {
      var c :| c in cs && Truthy(c.cc) && c.cc.value == t;
      assert c in Declaring(cs, t);
    }
    if Declaring(cs, t) != {} {
      var c :| c in Declaring(cs, t);
      assert t in LiveTopics(cs);
    }
  }

  /** The count of one CC after counting one more connection `c`. */
  lemma CensusAddAt(done: set<Connection>, c: Connection, t: Topic)
    requires c !in done
    requires t in LiveTopics(done + {c})
    ensures |Declaring(done + {c}, t)| ==
      if c.cc == Some(t) then (if t in LiveTopics(done) then |Declaring(done, t)| else 0) + 1
      else |Declaring(done, t)|
  {
    DeclaringAdd(done, c, t);
    if c.cc == Some(t) {
      assert c !in Declaring(done, t);
      LiveIffDeclared(done, t);
    }
  }

  /** Counting one more connection `c` adds one to the count of its CC when
      that CC is truthy, and changes nothing otherwise. */
  lemma CensusAdd(done: set<Connection>, c: Connection)
    requires c !in done
    ensures Census(done + {c}) ==
      if !Truthy(c.cc) then Census(done)
      else Census(done)[c.cc.value := (if c.cc.value in Census(done) then Census(done)[c.cc.value] else 0) + 1]
  {
    var all := done + {c};
    var before, after := Census(done), Census(all);
    var expected := if !Truthy(c.cc) then before
      else before[c.cc.value := (if c.cc.value in before then before[c.cc.value] else 0) + 1];
    LiveTopicsAdd(done, c);
    assert after.Keys == expected.Keys;
    forall t | t in after ensures after[t] == expected[t] {
      CensusAddAt(done, c, t);
    }
  }

  /** The counting loop of the presence tick: for each client with a truthy
      CC, add one to that CC's count. */
  method CountLive(clients: set<Connection>) returns (counts: Snapshot)
    ensures counts == Census(clients)
  {
    counts := map[];
    var todo := clients;
    ghost var done: set<Connection> := {};
    while todo != {}
      invariant todo + done == clients && todo !! done
      invariant counts == Census(done)
      decreases todo
    {
      var c :| c in todo;
      if Truthy(c.cc) {
        var t := c.cc.value;
        counts := counts[t := (if t in counts then counts[t] else 0) + 1];
      }
      CensusAdd(done, c);
      todo := todo - {c};
      done := done + {c};
    }
    assert done == clients;
  }

  /** The CCs reported as no longer live: those of the previous snapshot
      (none when nothing is stored) whose current count is missing or zero. */
  function NoLongerLive(previous: Option<Snapshot>, current: Snapshot): (r: set<Topic>)
    ensures forall t :: t in r <==> previous.Some? && t in previous.value && (t !in current || current[t] == 0)
  {
    if previous.None? then {}
    else set t | t in previous.value && (t !in current || current[t] == 0)
  }

  /** Against the connections themselves: a CC is reported exactly when the
      previous snapshot has it and no connection now declares it (or it is
      the empty string, which is never counted). */
  lemma NoLongerLiveIff(previous: Option<Snapshot>, cs: set<Connection>, t: Topic)
    ensures t in NoLongerLive(previous, Census(cs)) <==>
      previous.Some? && t in previous.value && (t == "" || Declaring(cs, t) == {})
  {
    CensusPositive(cs);
    if t != "" {
      LiveIffDeclared(cs, t);
    }
  }

  /** A CC is reported once when it goes silent: the next tick, which starts
      from the census just stored, does not report it again. */
  lemma ReportedOnce(previous: Option<Snapshot>, cs: set<Connection>, next: Snapshot, t: Topic)
    requires t in NoLongerLive(previous, Census(cs))
    ensures t !in NoLongerLive(Some(Census(cs)), next)
  {
    CensusPositive(cs);
  }

  /** Nothing is reported while the connections and their CCs stay as they were. */
  lemma SteadyReportsNothing(cs: set<Connection>)
    ensures NoLongerLive(Some(Census(cs)), Census(cs)) == {}
  {
    CensusPositive(cs);
  }
}
