/** The objects that registration changes in place: the rendezvous server's directory, and the
owner's database with the pass that registers what is due. */
module RegistrationObjects {
  import opened Outcomes
  import opened To2Messages
  import opened Registrations

  /** store/src/directory.rs, with the time to live of each file. */
  class DirectoryStore {
    var items: Items

    constructor ()
      ensures items == map[]
    {
      items := map[];
    }

    /** `store_data`: the new file has no attributes. */
    method StoreData(g: Guid)
      modifies this
      ensures items == old(items)[g := None]
    {
      items := items[g := None];
    }

    /** `store_metadata` of a time to live; nothing happens to a missing file. */
    method StoreTtl(g: Guid, now: real, wait: nat)
      modifies this
      ensures items == if g in old(items) then old(items)[g := Some(now.Floor + wait)] else old(items)
    {
      if g in items {
        items := items[g := Some(now.Floor + wait)];
      }
    }

    /** The end of `ownersign`. */
    method OwnerSign(g: Guid, requested: nat, maxWait: nat, now: real) returns (wait: nat)
      modifies this
      ensures wait == Granted(requested, maxWait)
      ensures wait <= requested && wait <= maxWait && (wait == requested || wait == maxWait)
      ensures items == old(items)[g := Some(now.Floor + wait)]
    {
      wait := requested;
      if wait > maxWait {
        wait := maxWait;
      }
      StoreData(g);
      StoreTtl(g, now, wait);
    }

    /** `load_data`: an expired file is deleted and not found. */
    method LoadData(g: Guid, now: real) returns (found: bool)
      modifies this
      ensures items == AfterLoad(old(items), g, now)
      ensures forall h :: h in items <==> h in old(items) && (h != g || found)
      ensures forall h | h in items :: items[h] == old(items)[h]
      ensures found <==> g in old(items) && (old(items)[g].Some? ==> now <= old(items)[g].value as real)
    {
      if g !in items {
        return false;
      }
      if items[g].Some? && now > items[g].value as real {
        items := items - {g};
        return false;
      }
      found := true;
    }

    /** `perform_maintenance`: every file is looked at once. */
    method PerformMaintenance(now: real)
      modifies this
      ensures items == Maintained(old(items), now)
      ensures forall h :: h in items <==> h in old(items) && (old(items)[h].Some? ==> now < old(items)[h].value as real)
      ensures forall h | h in items :: items[h] == old(items)[h]
    {
      var entries := items.Keys;
      ghost var all := items;
      while entries != {}
        invariant entries <= all.Keys
        invariant items == map g | g in all && (g in entries || !Expired(all[g], now)) :: all[g]
        decreases |entries|
      {
        var g :| g in entries;
        entries := entries - {g};
        if items[g].Some? && !(now < items[g].value as real) {
          items := items - {g};
        }
      }
    }
  }

  /** The owner server's side: the database of vouchers, and the settings. */
  class OwnerDaemon {
    const settings: Settings
    const maxWait: nat
    const rendezvous: DirectoryStore
    var rows: map<Guid, Row>
    ghost var history: History

    ghost const config: Config := ConfigOf(settings, maxWait)

    /** The stores are those of the run so far, and no pass is under way. */
    ghost predicate Idle()
      reads this, rendezvous
    {
      var st := Run(config, history);
      && Valid(config, history) && st.rows == rows && st.items == rendezvous.items
      && st.pending == multiset{} && st.accepted == multiset{}
    }

    constructor (settings: Settings, maxWait: nat)
      ensures Idle() && fresh(rendezvous) && history == [] && this.settings == settings && this.maxWait == maxWait
    {
      this.settings, this.maxWait := settings, maxWait;
      rendezvous := new DirectoryStore();
      rows, history := map[], [];
    }

    /** In a pass, with these vouchers still to report. */
    ghost predicate Passing(due: set<Guid>)
      reads this, rendezvous
    {
      var st := Run(config, history);
      && Valid(config, history) && st.rows == rows && st.items == rendezvous.items
      && st.pending == multiset(due) && st.accepted == multiset{}
    }

    /** Both stores have it that the voucher is registered, from some second not before `from` on. */
    predicate Granted(g: Guid, from: int)
      reads this, rendezvous
    {
      && g in rows && rows[g].expiry.Some? && rows[g].expiry.value >= from + ConfigOf(settings, maxWait).wait
      && g in rendezvous.items && rendezvous.items[g].Some? && rendezvous.items[g].value >= from + ConfigOf(settings, maxWait).wait
    }

    /** One voucher: report it, and store the granted time if that worked. */
    method Report(g: Guid, reached: bool, sent: real, confirmed: real, ghost due: set<Guid>)
      requires Passing(due) && g in due && g in rows && Run(config, history).now <= sent <= confirmed
      modifies this, rendezvous
      ensures Passing(due - {g}) && old(history) <= history && Run(config, history).now <= confirmed
      ensures !reached ==> rows == old(rows) && rendezvous.items == old(rendezvous.items)
      ensures reached ==>
        && rows == old(rows)[g := old(rows)[g].(expiry := Some(confirmed.Floor + config.wait))]
        && rendezvous.items == old(rendezvous.items)[g := Some(sent.Floor + config.wait)]
    {
      hide Run, Valid, Apply;
      ghost var st := Run(config, history);
      if reached {
        ReportedStep(config, st, g, sent, confirmed, due);
        Extended(config, history, sent, Accept(g));
        history := history + [(sent, Accept(g))];
        var wait := rendezvous.OwnerSign(g, settings.period, maxWait, sent);
        Extended(config, history, confirmed, Confirm(g, sent));
        history := history + [(confirmed, Confirm(g, sent))];
        rows := rows[g := rows[g].(expiry := Some(confirmed.Floor + wait))];
      } else {
        FailedStep(config, st, g, sent, due);
        Extended(config, history, sent, ReportFails(g));
        history := history + [(sent, ReportFails(g))];
      }
    }

    /** The state of a pass over the vouchers `all`, when `due` are left. */
    ghost predicate PassInvariant(all: set<Guid>, due: set<Guid>, reachable: Guid -> bool, from: int, before: map<Guid, Row>, since: History)
      reads this, rendezvous
    {
      && due <= all <= rows.Keys == before.Keys && Passing(due) && since <= history
      && forall g | g in rows :: if g in all - due && reachable(g) then Granted(g, from) else rows[g] == before[g]
    }

    /** One round of the loop. */
    method PassNext(g: Guid, reachable: Guid -> bool, sent: real, confirmed: real, ghost all: set<Guid>, ghost due: set<Guid>,
                    ghost from: int, ghost before: map<Guid, Row>, ghost since: History)
      requires PassInvariant(all, due, reachable, from, before, since) && g in due
      requires Run(config, history).now <= sent <= confirmed && from <= sent.Floor
      modifies this, rendezvous
      ensures PassInvariant(all, due - {g}, reachable, from, before, since) && Run(config, history).now <= confirmed
    {
      hide Run, Valid;
      Report(g, reachable(g), sent, confirmed, due);
    }

    /** One pass of `report_to_rendezvous`, or of `check_registration_window`: query, then report
        what is due one by one. Every voucher that was due and could be reported is registered from
        some moment of the pass on; no other voucher changes. */
    method Pass(windowed: bool, clock: nat -> real, reachable: Guid -> bool)
      requires Idle() && Run(config, history).now <= clock(0)
      requires forall i: nat, j: nat :: i <= j ==> clock(i) <= clock(j)
      modifies this, rendezvous
      ensures Idle() && old(history) <= history
      ensures rows.Keys == old(rows).Keys
      ensures
        var limit := clock(0).Floor + (if windowed then settings.window else 0);
        forall g | g in rows ::
          var before := old(rows)[g];
          if !before.performed && (before.expiry.None? || before.expiry.value < limit) && reachable(g) then Granted(g, clock(0).Floor) else rows[g] == before
    {
      hide Run, Valid, Granted;
      var limit := clock(0).Floor + (if windowed then settings.window else 0);
      var due := Selected(rows, limit);
      ghost var all := due;
      Extended(config, history, clock(0), Select(windowed));
      history := history + [(clock(0), Select(windowed))];
      var i := 1;
      assert PassInvariant(all, due, reachable, clock(0).Floor, old(rows), old(history));
      hide PassInvariant;
      while due != {}
        invariant PassInvariant(all, due, reachable, clock(0).Floor, old(rows), old(history))
        invariant Run(config, history).now <= clock(i)
        decreases |due|
      {
        var g :| g in due;
        assert clock(0) <= clock(i) <= clock(i + 1) <= clock(i + 2);
        PassNext(g, reachable, clock(i), clock(i + 1), all, due, clock(0).Floor, old(rows), old(history));
        due := due - {g};
        i := i + 2;
      }
      PassEnds(this, all, reachable, clock(0).Floor, old(rows), old(history));
    }
  }

  lemma {:induction false} PassEnds(o: OwnerDaemon, all: set<Guid>, reachable: Guid -> bool, from: int, before: map<Guid, Row>, since: History)
    requires o.PassInvariant(all, {}, reachable, from, before, since)
    ensures o.Idle() && since <= o.history && o.rows.Keys == before.Keys
    ensures forall g | g in o.rows :: if g in all && reachable(g) then o.Granted(g, from) else o.rows[g] == before[g]
  {
    hide Run, Valid;
    assert all - {} == all;
  }

  /** A report in a pass with nothing else going on. */
  lemma {:induction false} ReportedStep(c: Config, st: State, g: Guid, sent: real, confirmed: real, due: set<Guid>)
    requires st.pending == multiset(due) && st.accepted == multiset{} && g in due && g in st.rows && st.now <= sent <= confirmed
    ensures
      var st1 := Apply(c, st, sent, Accept(g));
      var next := Apply(c, st1, confirmed, Confirm(g, sent));
      && Enabled(st, sent, Accept(g)) && Enabled(st1, confirmed, Confirm(g, sent))
      && next.now == confirmed && next.pending == multiset(due - {g}) && next.accepted == multiset{}
      && next.rows == st.rows[g := st.rows[g].(expiry := Some(confirmed.Floor + c.wait))]
      && next.items == st.items[g := Some(sent.Floor + c.wait)]
  {
    var st1 := Apply(c, st, sent, Accept(g));
    WithoutOne(due, g);
    assert st1 == st.(now := sent, pending := multiset(due - {g}), accepted := multiset{(g, sent)},
                      items := st.items[g := Some(sent.Floor + c.wait)], seen := st.seen[g := sent]);
    ConfirmedStep(c, st1, g, sent, confirmed);
    hide Apply;
  }

  lemma {:induction false} ConfirmedStep(c: Config, st: State, g: Guid, sent: real, confirmed: real)
    requires st.accepted == multiset{(g, sent)} && g in st.rows
    ensures Apply(c, st, confirmed, Confirm(g, sent)) ==
            st.(now := confirmed, accepted := multiset{}, rows := st.rows[g := st.rows[g].(expiry := Some(confirmed.Floor + c.wait))])
  {
  }

  lemma {:induction false} WithoutOne(due: set<Guid>, g: Guid)
    requires g in due
    ensures multiset(due) - multiset{g} == multiset(due - {g})
  {
  }

  lemma {:induction false} FailedStep(c: Config, st: State, g: Guid, sent: real, due: set<Guid>)
    requires st.pending == multiset(due) && g in due && st.now <= sent
    ensures
      var next := Apply(c, st, sent, ReportFails(g));
      && Enabled(st, sent, ReportFails(g)) && next.now == sent && next.pending == multiset(due - {g})
      && next.accepted == st.accepted && next.rows == st.rows && next.items == st.items
  {
    WithoutOne(due, g);
  }

  lemma {:induction false} Extended(c: Config, h: History, t: real, e: Event)
    requires Valid(c, h) && Enabled(Run(c, h), t, e)
    ensures Valid(c, h + [(t, e)]) && Run(c, h + [(t, e)]) == Apply(c, Run(c, h), t, e)
  {
    hide Enabled, Apply;
    assert (h + [(t, e)])[..|h + [(t, e)]| - 1] == h;
  }
}
