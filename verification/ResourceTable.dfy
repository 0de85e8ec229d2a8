/** The gateway's table of named resources as it is kept (gateway/server.py): records updated in
    place, one method for each await-free stretch. A task may hold a record that a teardown has taken
    out of the table; such a stretch takes the record itself. What the stretches add up to is proved
    about the functions of Lifecycle that specify them here. */
module ResourceTable {
  import opened Lifecycle

  class Record {
    var hasWorkdir: bool
    var created: bool
    var status: Status
    var waiters: set<Client>
    var provisioning: bool
    var tearingDown: bool

    constructor ()
      ensures Value() == NEW_REC
    {
      hasWorkdir, created, status, waiters, provisioning, tearingDown := false, false, Idle, {}, false, false;
    }

    function Value(): Rec
      reads this
    {
      Rec(hasWorkdir, created, status, waiters, provisioning, tearingDown)
    }

    /** _request_resource, on the record. */
    method Ask(up: bool, c: Client) returns (launch: bool)
      modifies this
      ensures Value() == Requested(old(Value()), up, c) && launch == Launches(old(Value()), up)
    {
      launch := false;
      if up {
        status := Active;
        return;
      }
      waiters := waiters + {c};
      if !provisioning {
        provisioning := true;
        status := Provisioning;
        launch := true;
      }
    }

    /** _prewarm, on the record of a box that is not up. */
    method Warm() returns (launch: bool)
      modifies this
      ensures Value() == Prewarmed(old(Value()), false) && launch == Launches(old(Value()), false)
    {
      launch := false;
      if !provisioning {
        provisioning := true;
        status := Provisioning;
        launch := true;
      }
    }

    /** _on_resource_up, on the record, as far as its audit. */
    method Raise()
      modifies this
      ensures Value() == Raised(old(Value()))
    {
      if !created {
        created := true;
      }
      status := Active;
      provisioning := false;
      if !hasWorkdir {
        hasWorkdir := true;
      }
    }

    /** _provision_resource, after its action. */
    method Finish(ok: bool)
      modifies this
      ensures Value() == if ok then Provisioned(old(Value())) else ProvisionFailed(old(Value()))
    {
      if ok {
        hasWorkdir := true;
        if !created {
          created := true;
        }
      } else {
        status := Failed;
        provisioning := false;
      }
    }

    /** _on_resource_up, after its audit. */
    method TakeWaiters() returns (taken: set<Client>)
      modifies this
      ensures taken == old(Value()).waiters && Value() == Emptied(old(Value()))
    {
      taken, waiters := waiters, {};
    }
  }

  class Table {
    var resources: map<string, Record>
    var up: set<string>    // names whose box is registered

    /** No record serves two names. */
    ghost predicate Valid()
      reads this
    {
      forall a, b :: a in resources && b in resources && resources[a] == resources[b] ==> a == b
    }

    ghost function Records(): set<Record>
      reads this
    {
      set n | n in resources :: resources[n]
    }

    /** What the table says of a name; a name without a record reads as a new one. */
    ghost function Value(name: string): Rec
      reads this, Records()
    {
      if name in resources then resources[name].Value() else NEW_REC
    }

    ghost function Values(): map<string, Rec>
      reads this, Records()
    {
      map n | n in resources :: resources[n].Value()
    }

    /** Only the name's record has changed since it was looked up. */
    /** Only the name's record has another value than it had. */
    lemma OnlyOneChanged(name: string, start: map<string, Rec>)
      requires Valid() && name in resources && resources.Keys == start.Keys + {name}
      requires forall n :: n in resources && resources[n] != resources[name] ==> resources[n].Value() == start[n]
      ensures Values() == start[name := resources[name].Value()]
    {
    }

    constructor ()
      ensures Valid() && resources == map[] && up == {}
    {
      resources, up := map[], {};
    }

    /** _res_state */
    method State(name: string) returns (st: Record)
      requires Valid()
      modifies this`resources
      ensures Valid() && name in resources && st == resources[name] && st.Value() == old(Value(name))
      ensures name in old(resources) ==> resources == old(resources)
      ensures name !in old(resources) ==> fresh(st) && resources == old(resources)[name := st]
      ensures Values() == old(Values())[name := old(Value(name))]
    {
      if name in resources {
        st := resources[name];
      } else {
        st := new Record();
        resources := resources[name := st];
      }
    }

    /** _request_resource, for a reusable resource in the catalog. */
    method Request(name: string, c: Client) returns (reused: bool, launch: bool)
      requires Valid()
      modifies this`resources, Records()
      ensures Valid()
      ensures reused == (name in up) && launch == Launches(old(Value(name)), reused)
      ensures fresh(Records() - old(Records()))
      ensures Values() == old(Values())[name := Requested(old(Value(name)), reused, c)]
    {
      reused := name in up;
      ghost var start := Values();
      var st := State(name);
      launch := st.Ask(reused, c);
      OnlyOneChanged(name, start);
    }

    /** _prewarm */
    method Prewarm(name: string) returns (launch: bool)
      requires Valid()
      modifies this`resources, Records()
      ensures Valid()
      ensures launch == Launches(old(Value(name)), name in up)
      ensures fresh(Records() - old(Records()))
      ensures Values() ==
        if name in up then old(Values()) else old(Values())[name := Prewarmed(old(Value(name)), false)]
    {
      launch := false;
      if name in up {
        return;
      }
      ghost var start := Values();
      var st := State(name);
      launch := st.Warm();
      OnlyOneChanged(name, start);
    }

    /** registry.register, for the box's connection. */
    method Register(name: string)
      requires Valid()
      modifies this`up
      ensures Valid() && up == old(up) + {name} && Values() == old(Values())
    {
      up := up + {name};
    }

    /** _on_resource_up as far as its audit; the record is held for TakeWaiters. */
    method ResourceUp(name: string) returns (st: Record)
      requires Valid()
      modifies this`resources, Records()
      ensures Valid() && name in resources && st == resources[name]
      ensures fresh(Records() - old(Records()))
      ensures Values() == old(Values())[name := Raised(old(Value(name)))]
    {
      ghost var start := Values();
      st := State(name);
      st.Raise();
      OnlyOneChanged(name, start);
    }

    /** Deregistration, and whether _on_server_gone goes on to prewarm. */
    method Gone(name: string, spot: bool) returns (heal: bool)
      requires Valid()
      modifies this`up
      ensures Valid() && up == old(up) - {name} && Values() == old(Values())
      ensures heal <==> spot && name in resources && !Value(name).tearingDown
    {
      up := up - {name};
      heal := spot && name in resources && !resources[name].tearingDown;
    }

    /** _teardown_resource as far as its action, which it runs only for a box with a directory. */
    method BeginTeardown(name: string) returns (act: bool)
      requires Valid()
      modifies this`resources, Records()
      ensures Records() <= old(Records())
      ensures Valid() && act == (name in old(Values()) && old(Value(name)).hasWorkdir)
      ensures Values() ==
        if act then old(Values())[name := old(Value(name)).(tearingDown := true)] else old(Values()) - {name}
    {
      act := name in resources && resources[name].hasWorkdir;
      if act {
        resources[name].tearingDown := true;
      } else {
        resources := resources - {name};
      }
    }

    /** _teardown_resource after its action. */
    method EndTeardown(name: string)
      requires Valid()
      modifies this`resources
      ensures Valid() && Records() <= old(Records()) && Values() == old(Values()) - {name}
    {
      resources := resources - {name};
    }
  }
}
