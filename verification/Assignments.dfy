/** What every stored appointment satisfies, from the roster filters, the builder and the
    start-time rule, and how its two expiries nest. */
module Assignments {
  import opened Wrappers
  import opened Domain
  import opened Tables
  import opened Workforce
  import opened Booking
  import opened Protocol
  import opened Invariants
  import opened Preservation
  import opened Commits
  import opened Safety
  import opened Claims

  /** Every stored appointment: a technician of that dealership who holds every certification
      the service asks for, a bay of that dealership, neither blacked out for any part of the
      stored window; the window as long as the catalog says and never empty, so the table's
      CHECK cannot fire; a start inside the lead times in force when it was validated; and the
      window that was checked is the window that is stored. */
  lemma EveryBookingIsFit(cfg: Config, w: World, a: Uuid) returns (i: nat)
    requires Reachable(cfg, w) && a in w.store.appointments
    ensures i < |w.log| && w.log[i].appointment == a
    ensures var d := w.store.appointments[a].details;
            && FitTechnician(cfg, d) && FitBay(cfg, d)
            && d.technician != "" && d.bay != "" && d.user != "" && d.dealership != ""
            && d.end == d.start + cfg.catalog[d.serviceType].duration && d.end > d.start
            && StartsInTime(cfg.settings, d.start, w.log[i].validatedAt)
            && w.log[i].query == BusyQuery(d.dealership, d.start, d.end, w.log[i].query.now)
  {
    hide Reachable, Inv, LogOk, Covered, Owners, Exclusive, SessionsOk, FitTechnician, FitBay;
    ReachableOk(cfg, w);
    InvParts(cfg, w);
    i := IndexOf(w, a);
    EntrySound(cfg, w, i);
    EntryQuery(cfg, w, i);
    SoundIsFit(cfg, w.store.appointments[a].details, w.log[i].validatedAt);
    SettingsInForce(cfg.settings, w.store.appointments[a].details.start, w.log[i].validatedAt, 0, 0, "", 0);
  }

  /** A staged booking, in any run: its technician is listed for its window, free in its
      snapshot, and of the best score of all that are; its bay is the first listed one that is
      free there. */
  lemma EveryPickIsBest(cfg: Config, w: World, sid: nat) returns (t: Technician, i: nat)
    requires Reachable(cfg, w) && StagedBooking(w, sid)
    ensures w.sessions[sid].plan.value.command.serviceType in cfg.catalog
    ensures var s := w.sessions[sid]; var c, view := s.plan.value.command, s.phase.view;
            var busy := BusyTechnicians(view.snapshot, s.plan.value.Query(view.began));
            var listed := ListedTechnicians(cfg.catalog, cfg.roster, c);
            && t in listed && t.id == s.phase.write.details.technician && t.id !in busy
            && forall u | u in listed && u.id !in busy :: u.reviewScore <= t.reviewScore
    ensures var s := w.sessions[sid]; var c, view := s.plan.value.command, s.phase.view;
            var busy := BusyBays(view.snapshot, s.plan.value.Query(view.began));
            var listed := ListedBays(cfg.catalog, cfg.roster, c);
            && i < |listed| && listed[i].id == s.phase.write.details.bay && listed[i].id !in busy
            && forall j | 0 <= j < i :: listed[j].id in busy
  {
    hide Reachable, Inv, ViewOk, BusyTechnicians, BusyBays, BuilderErrors, ListedTechnicians, ListedBays;
    ReachableOk(cfg, w);
    SessionAt(cfg, w, sid);
    var s := w.sessions[sid];
    var p, q := s.plan.value, s.plan.value.Query(s.phase.view.began);
    t := PickedTechnicianIsBest(p.technicians, ListedTechnicians(cfg.catalog, cfg.roster, p.command),
                                BusyTechnicians(s.phase.view.snapshot, q));
    i := PickedBayIsFirst(p.bays, BusyBays(s.phase.view.snapshot, q));
  }

  lemma PickedBayIsFirst(bays: seq<ServiceBay>, busy: set<string>) returns (i: nat)
    requires FirstFree(BayIds(bays), busy) != ""
    ensures i < |bays| && bays[i].id == FirstFree(BayIds(bays), busy) && bays[i].id !in busy
    ensures forall j | 0 <= j < i :: bays[j].id in busy
  {
    var ids := BayIds(bays);
    FirstFreeIsFree(ids, busy);
    i :| 0 <= i < |ids| && ids[i] == FirstFree(ids, busy) && ids[i] !in busy && forall j | 0 <= j < i :: ids[j] in busy;
    assert forall j | 0 <= j < i :: ids[j] == bays[j].id;
  }

  lemma EntryQuery(cfg: Config, w: World, i: nat)
    requires LogOk(cfg, w) && i < |w.log|
    ensures Stored(w, w.log[i])
    ensures var d := DetailsOf(w, w.log[i]);
            w.log[i].query == BusyQuery(d.dealership, d.start, d.end, w.log[i].query.now)
  {
    hide LogOk, Sound, PathOk;
    EntryStored(cfg, w, i);
  }

  lemma EntryHold(cfg: Config, w: World, i: nat)
    requires LogOk(cfg, w) && i < |w.log|
    ensures Stored(w, w.log[i])
    ensures var hold, h := HoldOf(w, w.log[i]), w.history[w.log[i].appointment];
            && hold.expiredAt == hold.createdAt + cfg.Factory().reservationTTL
            && w.log[i].validatedAt <= hold.createdAt
            && (|h| > 1 ==> h[1].decidedAt < hold.expiredAt)
  {
    hide LogOk, Sound;
    EntryStored(cfg, w, i);
  }

  /** If the time from validating the start to creating the hold, plus the TTL, is within the
      minimum lead time, the hold ends no later than the appointment starts: a live hold is
      never a no-show, and a confirm that was decided was decided before the start. */
  lemma ExpiriesNest(cfg: Config, w: World, i: nat)
    requires Reachable(cfg, w) && i < |w.log|
    ensures Stored(w, w.log[i])
    ensures var hold, d, h := HoldOf(w, w.log[i]), DetailsOf(w, w.log[i]), w.history[w.log[i].appointment];
            hold.createdAt - w.log[i].validatedAt + InForce(cfg.settings.reservationTTL, 300_000_000_000) <=
                InForce(cfg.settings.minStartLeadTime, 3_600_000_000_000) ==>
              && hold.expiredAt <= d.start
              && (forall status, t | t < hold.expiredAt :: !IsNoShow(status, d.start, t))
              && (|h| > 1 ==> h[1].decidedAt < d.start)
  {
    hide Reachable, Inv, LogOk, Covered, Owners, Exclusive, SessionsOk;
    ReachableOk(cfg, w);
    InvParts(cfg, w);
    EntrySound(cfg, w, i);
    EntryHold(cfg, w, i);
  }

  /** With the default settings the nesting holds for every booking whose hold is created
      within 55 minutes of its validation. */
  lemma DefaultExpiriesNest(cfg: Config, w: World, i: nat)
    requires Reachable(cfg, w) && i < |w.log| && cfg.settings.minStartLeadTime <= 0 && cfg.settings.reservationTTL <= 0
    ensures Stored(w, w.log[i])
    ensures HoldOf(w, w.log[i]).createdAt <= w.log[i].validatedAt + 3_300_000_000_000 ==>
            HoldOf(w, w.log[i]).expiredAt <= DetailsOf(w, w.log[i]).start
  {
    hide Reachable;
    ExpiriesNest(cfg, w, i);
  }
}
