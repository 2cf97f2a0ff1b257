/** The stub workforce service (internal/appointments/adapters/workforce): the filters
    over the roster of a dealership. */
module Workforce {
  import opened Domain
  import opened Tables

  datatype Technician = Technician(id: string, certifications: seq<string>, reviewScore: real)

  datatype ServiceBay = ServiceBay(id: string)

  datatype Blackout = Blackout(from: Time, to: Time)

  datatype TechnicianEntry = TechnicianEntry(technician: Technician, blackouts: seq<Blackout>)

  datatype BayEntry = BayEntry(bay: ServiceBay, blackouts: seq<Blackout>)

  datatype Roster = Roster(technicians: map<string, seq<TechnicianEntry>>, bays: map<string, seq<BayEntry>>)
  {
    // Reading a Go map at a missing key gives the zero value, an empty slice.
    function TechnicianEntries(dealership: string): seq<TechnicianEntry> {
      if dealership in technicians then technicians[dealership] else []
    }

    function BayEntries(dealership: string): seq<BayEntry> {
      if dealership in bays then bays[dealership] else []
    }
  }

  predicate OnDuty(blackouts: seq<Blackout>, start: Time, end: Time) {
    forall b | b in blackouts :: !Overlaps(b.from, b.to, start, end)
  }

  predicate HasAllCertifications(technician: Technician, required: seq<string>) {
    forall c | c in required :: c in technician.certifications
  }

  predicate Qualified(entry: TechnicianEntry, required: seq<string>, start: Time, end: Time) {
    HasAllCertifications(entry.technician, required) && OnDuty(entry.blackouts, start, end)
  }

  /** All are held when the required ones are among the held ones, as sets. */
  lemma AllHeldIsSubset(technician: Technician, required: seq<string>)
    ensures HasAllCertifications(technician, required) <==>
            (set c | c in required) <= (set c | c in technician.certifications)
  {
    var asked, held := set c | c in required, set c | c in technician.certifications;
    if asked <= held {
      forall c | c in required ensures c in technician.certifications {
        assert c in asked;
        assert c in held;
      }
    }
  }

  function EligibleTechnicians(
    entries: seq<TechnicianEntry>, required: seq<string>, start: Time, end: Time): seq<Technician>
  {
    if entries == [] then []
    else
      EligibleTechnicians(entries[..|entries| - 1], required, start, end) +
      if Qualified(entries[|entries| - 1], required, start, end) then [entries[|entries| - 1].technician] else []
  }

  function EligibleBays(entries: seq<BayEntry>, start: Time, end: Time): seq<ServiceBay> {
    if entries == [] then []
    else
      EligibleBays(entries[..|entries| - 1], start, end) +
      if OnDuty(entries[|entries| - 1].blackouts, start, end) then [entries[|entries| - 1].bay] else []
  }

  // ---- The service's own loops ----

  method IsOnDuty(blackouts: seq<Blackout>, start: Time, end: Time) returns (ok: bool)
    ensures ok <==> OnDuty(blackouts, start, end)
    ensures ok <==> forall b | b in blackouts :: b.to <= start || end <= b.from
  {
    for i := 0 to |blackouts|
      invariant forall j | 0 <= j < i :: !Overlaps(blackouts[j].from, blackouts[j].to, start, end)
    {
      if blackouts[i].from < end && blackouts[i].to > start {
        assert Overlaps(blackouts[i].from, blackouts[i].to, start, end);
        return false;
      }
    }
    ok := true;
  }

  method HoldsAllCertifications(technician: Technician, required: seq<string>) returns (ok: bool)
    ensures ok <==> HasAllCertifications(technician, required)
    ensures ok <==> (set c | c in required) <= (set c | c in technician.certifications)
  {
    AllHeldIsSubset(technician, required);
    var held: set<string> := {};
    for i := 0 to |technician.certifications|
      invariant held == set j | 0 <= j < i :: technician.certifications[j]
    {
      held := held + {technician.certifications[i]};
    }
    for i := 0 to |required|
      invariant forall j | 0 <= j < i :: required[j] in technician.certifications
    {
      if required[i] !in held {
        assert required[i] in required && required[i] !in technician.certifications;
        return false;
      }
    }
    ok := true;
  }

  method ListTechnicians(roster: Roster, dealership: string, required: seq<string>, start: Time, end: Time)
    returns (matched: seq<Technician>)
    ensures matched == EligibleTechnicians(roster.TechnicianEntries(dealership), required, start, end)
  {
    matched := [];
    var entries := roster.TechnicianEntries(dealership);
    for i := 0 to |entries|
      invariant matched == EligibleTechnicians(entries[..i], required, start, end)
    {
      assert entries[..i + 1][..i] == entries[..i];
      var certified := HoldsAllCertifications(entries[i].technician, required);
      if !certified {
        continue;
      }
      var available := IsOnDuty(entries[i].blackouts, start, end);
      if !available {
        continue;
      }
      matched := matched + [entries[i].technician];
    }
    assert entries[..|entries|] == entries;
  }

  method ListServiceBays(roster: Roster, dealership: string, start: Time, end: Time) returns (matched: seq<ServiceBay>)
    ensures matched == EligibleBays(roster.BayEntries(dealership), start, end)
  {
    matched := [];
    var entries := roster.BayEntries(dealership);
    for i := 0 to |entries|
      invariant matched == EligibleBays(entries[..i], start, end)
    {
      assert entries[..i + 1][..i] == entries[..i];
      var available := IsOnDuty(entries[i].blackouts, start, end);
      if available {
        matched := matched + [entries[i].bay];
      }
    }
    assert entries[..|entries|] == entries;
  }

  // ---- What the filters mean ----

  /** Every required certification is held, and no blackout reaches into the window. */
  predicate Suits(entry: TechnicianEntry, required: seq<string>, start: Time, end: Time) {
    && (set c | c in required) <= (set c | c in entry.technician.certifications)
    && InService(entry.blackouts, start, end)
  }

  /** Each blackout is over when the window starts, or begins when it has ended. */
  predicate InService(blackouts: seq<Blackout>, start: Time, end: Time) {
    forall i | 0 <= i < |blackouts| :: blackouts[i].to <= start || end <= blackouts[i].from
  }

  lemma SuitsIsQualified(entry: TechnicianEntry, required: seq<string>, start: Time, end: Time)
    ensures Suits(entry, required, start, end) <==> Qualified(entry, required, start, end)
  {
    InServiceIsOnDuty(entry.blackouts, start, end);
    AllHeldIsSubset(entry.technician, required);
    hide OnDuty, InService, HasAllCertifications;
  }

  lemma InServiceIsOnDuty(blackouts: seq<Blackout>, start: Time, end: Time)
    ensures InService(blackouts, start, end) <==> OnDuty(blackouts, start, end)
  {
    if InService(blackouts, start, end) {
      forall b | b in blackouts ensures !Overlaps(b.from, b.to, start, end) {
        var i :| 0 <= i < |blackouts| && blackouts[i] == b;
      }
    }
    if OnDuty(blackouts, start, end) {
      forall i | 0 <= i < |blackouts| ensures blackouts[i].to <= start || end <= blackouts[i].from {
        assert blackouts[i] in blackouts;
      }
    }
  }

  /** Of blackouts and windows that are not empty: in service is to share no instant. */
  lemma InServiceSharesNoInstant(blackouts: seq<Blackout>, start: Time, end: Time)
    requires start < end && forall b | b in blackouts :: b.from < b.to
    ensures InService(blackouts, start, end) <==>
            forall i, t | 0 <= i < |blackouts| ::
                   !(Covers(blackouts[i].from, blackouts[i].to, t) && Covers(start, end, t))
  {
    forall i | 0 <= i < |blackouts|
      ensures (blackouts[i].to <= start || end <= blackouts[i].from) <==>
              forall t :: !(Covers(blackouts[i].from, blackouts[i].to, t) && Covers(start, end, t))
    {
      assert blackouts[i] in blackouts;
      OverlapIsASharedInstant(blackouts[i].from, blackouts[i].to, start, end);
    }
  }

  /** A technician is listed exactly when some roster entry of theirs suits. */
  lemma {:induction false} EligibleTechnicianIff(
    entries: seq<TechnicianEntry>, required: seq<string>, start: Time, end: Time, t: Technician)
    ensures t in EligibleTechnicians(entries, required, start, end) <==>
            exists i :: 0 <= i < |entries| && entries[i].technician == t && Suits(entries[i], required, start, end)
  {
    hide Suits, Qualified;
    if entries != [] {
      var n := |entries| - 1;
      var front := entries[..n];
      EligibleTechnicianIff(front, required, start, end, t);
      SuitsIsQualified(entries[n], required, start, end);
      assert forall i | 0 <= i < n :: front[i] == entries[i];
    }
  }

  /** A bay is listed exactly when some roster entry of it is in service. */
  lemma {:induction false} EligibleBayIff(entries: seq<BayEntry>, start: Time, end: Time, b: ServiceBay)
    ensures b in EligibleBays(entries, start, end) <==>
            exists i :: 0 <= i < |entries| && entries[i].bay == b && InService(entries[i].blackouts, start, end)
  {
    hide OnDuty, InService;
    if entries != [] {
      var n := |entries| - 1;
      var front := entries[..n];
      EligibleBayIff(front, start, end, b);
      InServiceIsOnDuty(entries[n].blackouts, start, end);
      assert forall i | 0 <= i < n :: front[i] == entries[i];
    }
  }

  /** The positions of the roster whose entries suit, in roster order. */
  function QualifiedPositions(
    entries: seq<TechnicianEntry>, required: seq<string>, start: Time, end: Time): (r: seq<nat>)
    ensures forall k | 0 <= k < |r| :: r[k] < |entries|
    ensures forall k, l | 0 <= k < l < |r| :: r[k] < r[l]
    ensures forall i | 0 <= i < |entries| :: Suits(entries[i], required, start, end) <==> i in r
  {
    if entries == [] then []
    else
      var n := |entries| - 1;
      QualifiedPositions(entries[..n], required, start, end) +
      if Suits(entries[n], required, start, end) then [n] else []
  }

  /** The list is the roster with the unqualified entries struck out: roster order, every
      qualified entry once, nothing else. */
  lemma {:induction false} EligibleTechniciansKeepOrder(
    entries: seq<TechnicianEntry>, required: seq<string>, start: Time, end: Time)
    ensures var picks := QualifiedPositions(entries, required, start, end);
            var listed := EligibleTechnicians(entries, required, start, end);
            |listed| == |picks| && forall k | 0 <= k < |picks| :: listed[k] == entries[picks[k]].technician
  {
    if entries != [] {
      var n := |entries| - 1;
      EligibleTechniciansKeepOrder(entries[..n], required, start, end);
      SuitsIsQualified(entries[n], required, start, end);
    }
  }

  /** The positions of the roster whose bays are in service, in roster order. */
  function OpenPositions(entries: seq<BayEntry>, start: Time, end: Time): (r: seq<nat>)
    ensures forall k | 0 <= k < |r| :: r[k] < |entries|
    ensures forall k, l | 0 <= k < l < |r| :: r[k] < r[l]
    ensures forall i | 0 <= i < |entries| :: InService(entries[i].blackouts, start, end) <==> i in r
  {
    if entries == [] then []
    else
      var n := |entries| - 1;
      OpenPositions(entries[..n], start, end) + if InService(entries[n].blackouts, start, end) then [n] else []
  }

  /** Bays too are listed in roster order, every open one once, nothing else. */
  lemma {:induction false} EligibleBaysKeepOrder(entries: seq<BayEntry>, start: Time, end: Time)
    ensures var picks, listed := OpenPositions(entries, start, end), EligibleBays(entries, start, end);
            |listed| == |picks| && forall k | 0 <= k < |picks| :: listed[k] == entries[picks[k]].bay
  {
    if entries != [] {
      var n := |entries| - 1;
      EligibleBaysKeepOrder(entries[..n], start, end);
      InServiceIsOnDuty(entries[n].blackouts, start, end);
    }
  }
}
