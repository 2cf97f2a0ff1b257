/** What follows from exclusion: release is complete, claims are not regained, and the
    claims of a dealership never exceed its bays or its technicians. */
module Claims {
  import opened Wrappers
  import opened Domain
  import opened Tables
  import opened Workforce
  import opened Booking
  import opened Protocol
  import opened Invariants
  import opened Preservation
  import opened Commits
  import opened Safety

  // ---- Runs only move forwards ----

  lemma LaterTransitive(w0: World, w1: World, w2: World)
    requires Later(w0, w1) && Later(w1, w2)
    ensures Later(w0, w2)
  {
    forall i | |w0.log| <= i < |w2.log| ensures w2.log[i].committedAt >= w0.clock {
      if i < |w1.log| { assert w2.log[i] == w1.log[i]; }
    }
    forall a | a in w0.history ensures HistoryGrows(w0, w2, a) {
      assert HistoryGrows(w0, w1, a) && HistoryGrows(w1, w2, a);
      forall m | |w0.history[a]| <= m < |w2.history[a]| ensures w2.history[a][m].at >= w0.clock {
        if m < |w1.history[a]| { assert w2.history[a][m] == w1.history[a][m]; }
      }
    }
  }

  lemma LaterReflexive(w: World)
    ensures Later(w, w)
  {
  }

  lemma {:induction false} RunLater(cfg: Config, w: World, trace: seq<Step>, w': World)
    requires Inv(cfg, w) && Exec(cfg, w, trace) == Some(w')
    ensures Later(w, w') && Inv(cfg, w')
  {
    hide Inv, Enabled, Apply, Later;
    if trace == [] {
      LaterReflexive(w);
    } else {
      var front := trace[..|trace| - 1];
      var mid := Exec(cfg, w, front).value;
      RunLater(cfg, w, front, mid);
      StepKeeps(cfg, mid, trace[|trace| - 1]);
      LaterTransitive(w, mid, w');
    }
  }

  // ---- A claim once lost ----

  /** An appointment that holds no claim at some point of a run holds one later exactly when it
      is then confirmed and that confirm was late: decided while the hold was live, committed
      when it was not. */
  lemma LostClaimReturnsOnlyLate(cfg: Config, w: World, trace: seq<Step>, w': World, a: Uuid)
    requires Reachable(cfg, w) && Exec(cfg, w, trace) == Some(w')
    requires a in w.store.appointments && !Claimed(w.store, a, w.clock)
    ensures a in w'.store.appointments
    ensures Claimed(w'.store, a, w'.clock) <==> w'.store.appointments[a].status == Confirmed && LateConfirm(w', a)
    ensures Claimed(w'.store, a, w'.clock) ==>
            forall r | r in w'.store.reservations && Held(w', a, r) ::
              a in w'.history && |w'.history[a]| > 1
                  && w'.history[a][1].decidedAt < w'.store.reservations[r].expiredAt <= w.clock
  {
    hide Reachable, Exec, Inv, LogOk, Covered, Owners, Exclusive, SessionsOk, Claimed, LateConfirm, Sound;
    ReachableOk(cfg, w);
    RunLater(cfg, w, trace, w');
    InvParts(cfg, w);
    InvParts(cfg, w');
    var i := IndexOf(w, a);
    assert w'.log[i] == w.log[i];
    ClaimOfEntry(cfg, w, i, w.clock);
    ClaimOfEntry(cfg, w', i, w'.clock);
    EntryStored(cfg, w, i);
    EntryStored(cfg, w', i);
    assert HistoryGrows(w, w', a);
    EntryHeld(cfg, w', i);
    LateIff(cfg, w', i);
    forall r | r in w'.store.reservations && Held(w', a, r) ensures r == w'.log[i].reservation {
      HoldIsUnique(cfg, w', i, r);
    }
  }

  lemma LateIff(cfg: Config, w: World, i: nat)
    requires LogOk(cfg, w) && Covered(w) && i < |w.log|
    ensures Stored(w, w.log[i])
    ensures LateConfirm(w, w.log[i].appointment) <==>
            ConfirmedSince(w, w.log[i].appointment, HoldOf(w, w.log[i]).expiredAt)
  {
    hide LogOk, Covered;
    EntryHeld(cfg, w, i);
    var a := w.log[i].appointment;
    if LateConfirm(w, a) {
      var r :| r in w.store.reservations && Held(w, a, r) && ConfirmedSince(w, a, w.store.reservations[r].expiredAt);
      HoldIsUnique(cfg, w, i, r);
    }
  }

  /** With timely confirms a lost claim is lost for good. */
  lemma LostClaimStaysLost(cfg: Config, w: World, trace: seq<Step>, w': World, a: Uuid)
    requires Reachable(cfg, w) && Exec(cfg, w, trace) == Some(w') && Timely(w')
    requires a in w.store.appointments && !Claimed(w.store, a, w.clock)
    ensures !Claimed(w'.store, a, w'.clock)
  {
    hide Reachable, Exec, Claimed;
    LostClaimReturnsOnlyLate(cfg, w, trace, w', a);
  }

  /** SQL's expired_at > now and Reservation.IsExpired are complements at every instant. */
  lemma ExpiryIsOneBoundary(store: Store, r: Uuid, now: Time)
    requires r in store.reservations
    requires forall q | q in store.reservations
             && store.reservations[q].appointment == store.reservations[r].appointment :: q == r
    ensures HasLiveHold(store, store.reservations[r].appointment, now) <==> !store.reservations[r].IsExpired(now)
  {
    assert store.reservations[r].expiredAt > now ==> HasLiveHold(store, store.reservations[r].appointment, now);
  }

  // ---- Release ----

  lemma OnlyCommitsWrite(cfg: Config, w: World, step: Step)
    requires Enabled(cfg, w, step) && !step.Commit? && !step.Tick?
    ensures Apply(cfg, w, step).store == w.store && Apply(cfg, w, step).clock == w.clock
  {
    hide CanPrepare, Advance;
  }

  lemma CommitStep(cfg: Config, w: World, sid: nat)
    requires Inv(cfg, w) && Enabled(cfg, w, Commit(sid))
    ensures Committing(cfg, w, Apply(cfg, w, Commit(sid)), sid) && IsStaged(w, sid)
  {
    hide Inv, SessionOk, CanCommit, Committed;
    SessionAt(cfg, w, sid);
  }

  lemma CommitEndsAClaim(cfg: Config, w: World, w': World, sid: nat, a: Uuid)
    requires Committing(cfg, w, w', sid) && IsStaged(w, sid) && LogOk(cfg, w) && Covered(w) && Owners(w)
    requires a in w.store.appointments && Claimed(w.store, a, w.clock)
    requires w.sessions[sid].phase.write != SetStatus(a, Cancelled)
    ensures Claimed(w'.store, a, w'.clock)
  {
    hide LogOk, Covered, Owners, SessionOk, CanCommit, Claimed, Committed;
    if w.sessions[sid].phase.write.NoWrite? {
      ReplayWritesNothing(w, w', sid);
    } else if w.sessions[sid].phase.write.Insert? {
      BookingKeepsClaim(cfg, w, w', sid, a);
    } else {
      StatusKeepsClaim(cfg, w, w', sid, a);
    }
  }

  lemma ReplayWritesNothing(w: World, w': World, sid: nat)
    requires IsStaged(w, sid) && CanCommit(w, w.sessions[sid]) && w' == Committed(w, sid)
             && w.sessions[sid].phase.write.NoWrite?
    ensures w'.store == w.store && w'.clock == w.clock
  {
  }

  /** Only the clock, or a commit that cancels a, can end a claim of a. */
  lemma WhatEndsAClaim(cfg: Config, w: World, step: Step, a: Uuid)
    requires Reachable(cfg, w) && Enabled(cfg, w, step) && a in w.store.appointments
    requires Claimed(w.store, a, w.clock) && !Claimed(Apply(cfg, w, step).store, a, Apply(cfg, w, step).clock)
    ensures step.Tick? || (step.Commit? && IsStaged(w, step.sid)
            && w.sessions[step.sid].phase.write == SetStatus(a, Cancelled))
  {
    hide Reachable, Inv, LogOk, Covered, Owners, Exclusive, SessionsOk, Committing, CanCommit, Committed, Claimed,
         CanPrepare, Advance;
    if step.Commit? {
      assert IsStaged(w, step.sid);
      if w.sessions[step.sid].phase.write != SetStatus(a, Cancelled) {
        ReachableOk(cfg, w);
        InvParts(cfg, w);
        CommitStep(cfg, w, step.sid);
        CommitEndsAClaim(cfg, w, Apply(cfg, w, step), step.sid, a);
      }
    } else if !step.Tick? {
      OnlyCommitsWrite(cfg, w, step);
    }
  }

  lemma BookingKeepsClaim(cfg: Config, w: World, w': World, sid: nat, a: Uuid)
    requires Committing(cfg, w, w', sid) && w.sessions[sid].phase.write.Insert? && Owners(w) && Covered(w)
    requires a in w.store.appointments && Claimed(w.store, a, w.clock)
    ensures Claimed(w'.store, a, w'.clock)
  {
    hide Committing, Owners, Covered, Claimed, NewEntryOk, Won;
    BookingShape(cfg, w, w', sid);
    ClaimKept(w.store, w'.store, a, w.clock);
  }

  lemma StatusKeepsClaim(cfg: Config, w: World, w': World, sid: nat, a: Uuid)
    requires Committing(cfg, w, w', sid) && w.sessions[sid].phase.write.SetStatus? && LogOk(cfg, w) && Covered(w)
    requires a in w.store.appointments && Claimed(w.store, a, w.clock)
    requires w.sessions[sid].phase.write != SetStatus(a, Cancelled)
    ensures Claimed(w'.store, a, w'.clock)
  {
    hide LogOk, Covered, Won, SessionOk;
    StatusShape(cfg, w, w', sid);
    StatusOfCommand(cfg, w, sid, w.sessions[sid]);
    if w.sessions[sid].phase.write.target != a { ClaimKept(w.store, w'.store, a, w.clock); }
  }

  /** The busy query for an appointment's own window. */
  function OwnWindow(d: Details, now: Time): BusyQuery {
    BusyQuery(d.dealership, d.start, d.end, now)
  }

  lemma OthersKeepTheirClaims(cfg: Config, w: World, step: Step, a: Uuid, b: Uuid)
    requires Reachable(cfg, w) && Enabled(cfg, w, step) && a in w.store.appointments && a != b
    requires Claimed(w.store, a, w.clock) && !Claimed(Apply(cfg, w, step).store, a, Apply(cfg, w, step).clock)
    requires Claimed(Apply(cfg, w, step).store, b, Apply(cfg, w, step).clock)
    ensures b in w.store.appointments && Claimed(w.store, b, w.clock)
    ensures w.store.appointments[b] == Apply(cfg, w, step).store.appointments[b]
  {
    hide Reachable, CanPrepare, CanCommit, HasLiveHold;
    WhatEndsAClaim(cfg, w, step, a);
    match step
    case Tick(elapsed) => ClaimEarlier(w.store, b, w.clock, w.clock + elapsed);
    case Commit(sid) => ClaimBack(w.store, Apply(cfg, w, step).store, b, w.clock);
  }

  lemma ClaimEarlier(store: Store, b: Uuid, now: Time, later: Time)
    requires Claimed(store, b, later) && now <= later
    ensures Claimed(store, b, now)
  {
    if store.appointments[b].status == Pending {
      var r :| r in store.reservations && store.reservations[r].appointment == b
          && store.reservations[r].expiredAt > later;
      assert store.reservations[r].expiredAt > now;
    }
  }

  lemma ClaimBack(store: Store, store': Store, b: Uuid, now: Time)
    requires Claimed(store', b, now) && store'.reservations == store.reservations
    requires b in store.appointments && b in store'.appointments && store.appointments[b] == store'.appointments[b]
    ensures Claimed(store, b, now)
  {
  }

  lemma NoRival(w: World, w': World, a: Uuid, b: Uuid)
    requires NoDoubleBooking(w) && a in w.store.appointments && b in w.store.appointments && a != b
    requires Claimed(w.store, a, w.clock) && Claimed(w.store, b, w.clock)
    requires b in w'.store.appointments && w'.store.appointments[b] == w.store.appointments[b]
    requires InWindow(OwnWindow(w.store.appointments[a].details, w'.clock), w'.store.appointments[b].details)
    ensures w'.store.appointments[b].details.technician != w.store.appointments[a].details.technician
    ensures w'.store.appointments[b].details.bay != w.store.appointments[a].details.bay
  {
    hide Claimed;
    assert !Clash(w.store.appointments[a].details, w.store.appointments[b].details);
  }

  /** When a claim ends, by a cancel or by the clock, its technician and its bay are both
      absent from the busy query's answer for its own window. */
  lemma ReleaseIsComplete(cfg: Config, w: World, step: Step, a: Uuid)
    requires Reachable(cfg, w) && Timely(w) && Enabled(cfg, w, step) && a in w.store.appointments
    requires Claimed(w.store, a, w.clock) && !Claimed(Apply(cfg, w, step).store, a, Apply(cfg, w, step).clock)
    ensures var w' := Apply(cfg, w, step); var d := w.store.appointments[a].details;
            && d.technician !in BusyTechnicians(w'.store, OwnWindow(d, w'.clock))
            && d.bay !in BusyBays(w'.store, OwnWindow(d, w'.clock))
  {
    hide Reachable, Inv, Enabled, Apply, Timely, NoDoubleBooking, Claimed, BusyTechnicians, BusyBays;
    var w', d := Apply(cfg, w, step), w.store.appointments[a].details;
    NeverDoubleBooked(cfg, w);
    if d.technician in BusyTechnicians(w'.store, OwnWindow(d, w'.clock)) {
      var b := BusyTechnicianRow(w'.store, OwnWindow(d, w'.clock), d.technician);
      OthersKeepTheirClaims(cfg, w, step, a, b);
      NoRival(w, w', a, b);
    }
    if d.bay in BusyBays(w'.store, OwnWindow(d, w'.clock)) {
      var b := BusyBayRow(w'.store, OwnWindow(d, w'.clock), d.bay);
      OthersKeepTheirClaims(cfg, w, step, a, b);
      NoRival(w, w', a, b);
    }
  }

  // ---- What the roster says of every booking ----

  /** Some roster entry of the dealership has the technician's id, all the certifications that
      the service asks for, and no blackout that reaches into the window. */
  predicate FitTechnician(cfg: Config, d: Details) {
    d.serviceType in cfg.catalog &&
    exists e | e in cfg.roster.TechnicianEntries(d.dealership) ::
      e.technician.id == d.technician
      && Suits(e, cfg.catalog[d.serviceType].requiredCertifications, d.start, d.end)
  }

  predicate FitBay(cfg: Config, d: Details) {
    exists e | e in cfg.roster.BayEntries(d.dealership) :: e.bay.id == d.bay && InService(e.blackouts, d.start, d.end)
  }

  lemma SoundIsFit(cfg: Config, d: Details, validatedAt: Time)
    requires Sound(cfg, d, validatedAt)
    ensures FitTechnician(cfg, d) && FitBay(cfg, d)
  {
    hide Suits, InService, StartTimeErrorDetail;
    var entries, bays := cfg.roster.TechnicianEntries(d.dealership), cfg.roster.BayEntries(d.dealership);
    var required := cfg.catalog[d.serviceType].requiredCertifications;
    var technicians := EligibleTechnicians(entries, required, d.start, d.end);
    var i :| 0 <= i < |technicians| && TechnicianIds(technicians)[i] == d.technician;
    EligibleTechnicianIff(entries, required, d.start, d.end, technicians[i]);
    var k :| 0 <= k < |entries| && entries[k].technician == technicians[i]
        && Suits(entries[k], required, d.start, d.end);
    assert entries[k] in entries;
    var eligible := EligibleBays(bays, d.start, d.end);
    var j :| 0 <= j < |eligible| && BayIds(eligible)[j] == d.bay;
    EligibleBayIff(bays, d.start, d.end, eligible[j]);
    var l :| 0 <= l < |bays| && bays[l].bay == eligible[j] && InService(bays[l].blackouts, d.start, d.end);
    assert bays[l] in bays;
  }

  // ---- Capacity ----

  /** The claims of a dealership whose service window covers an instant. */
  function ClaimsCovering(w: World, dealership: string, instant: Time): set<Uuid> {
    set a | a in w.store.appointments && Claimed(w.store, a, w.clock)
            && w.store.appointments[a].details.dealership == dealership
            && Covers(w.store.appointments[a].details.start, w.store.appointments[a].details.end, instant)
  }

  function TechnicianRoster(roster: Roster, dealership: string): set<string> {
    set e | e in roster.TechnicianEntries(dealership) :: e.technician.id
  }

  function BayRoster(roster: Roster, dealership: string): set<string> {
    set e | e in roster.BayEntries(dealership) :: e.bay.id
  }

  /** Distinct members with distinct images: no more members than there is room for. */
  lemma {:induction false} Pigeonhole(claims: set<Uuid>, rooms: set<string>, image: map<Uuid, string>)
    requires forall a | a in claims :: a in image && image[a] in rooms
    requires forall a, b | a in claims && b in claims && a != b :: image[a] != image[b]
    ensures |claims| <= |rooms|
  {
    if claims != {} {
      var a :| a in claims;
      Pigeonhole(claims - {a}, rooms - {image[a]}, image);
    }
  }

  lemma EntrySound(cfg: Config, w: World, i: nat)
    requires LogOk(cfg, w) && i < |w.log|
    ensures Stored(w, w.log[i]) && Sound(cfg, DetailsOf(w, w.log[i]), w.log[i].validatedAt)
  {
    hide LogOk, Sound, PathOk;
    EntryStored(cfg, w, i);
  }

  lemma OnRoster(cfg: Config, w: World, a: Uuid)
    requires LogOk(cfg, w) && Covered(w) && a in w.store.appointments
    ensures var d := w.store.appointments[a].details;
            d.technician in TechnicianRoster(cfg.roster, d.dealership) && d.bay in BayRoster(cfg.roster, d.dealership)
  {
    hide LogOk, Covered, Sound, Suits, InService;
    var i := IndexOf(w, a);
    EntrySound(cfg, w, i);
    SoundIsFit(cfg, w.store.appointments[a].details, w.log[i].validatedAt);
  }

  /** At any time and any service instant, a dealership's claims are at most its bays and at
      most its technicians. */
  lemma CapacityNeverExceeded(cfg: Config, w: World, dealership: string, instant: Time)
    requires Reachable(cfg, w) && Timely(w)
    ensures |ClaimsCovering(w, dealership, instant)| <= |BayRoster(cfg.roster, dealership)|
    ensures |ClaimsCovering(w, dealership, instant)| <= |TechnicianRoster(cfg.roster, dealership)|
  {
    hide Reachable, Inv, LogOk, Covered, Timely, Claimed, TechnicianRoster, BayRoster;
    ReachableOk(cfg, w);
    InvParts(cfg, w);
    NeverDoubleBooked(cfg, w);
    var claims := ClaimsCovering(w, dealership, instant);
    var bays := map a | a in claims :: w.store.appointments[a].details.bay;
    var technicians := map a | a in claims :: w.store.appointments[a].details.technician;
    forall a | a in claims
           ensures bays[a] in BayRoster(cfg.roster, dealership)
                   && technicians[a] in TechnicianRoster(cfg.roster, dealership) {
      OnRoster(cfg, w, a);
    }
    forall a, b | a in claims && b in claims && a != b ensures bays[a] != bays[b] && technicians[a] != technicians[b] {
      assert !Clash(w.store.appointments[a].details, w.store.appointments[b].details);
    }
    Pigeonhole(claims, BayRoster(cfg.roster, dealership), bays);
    Pigeonhole(claims, TechnicianRoster(cfg.roster, dealership), technicians);
  }
}
