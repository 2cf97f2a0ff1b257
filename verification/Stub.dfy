/** The service's own stub roster and catalog, with the default settings. */
module Stub {
  import opened Domain
  import opened Workforce
  import opened Booking
  import opened Protocol
  import opened Safety
  import opened Deadlines

  const DISTANT_PAST: Time := 0
  const DISTANT_FUTURE: Time := 32_503_680_000 * SECOND

  function AlwaysOff(): seq<Blackout> {
    [Blackout(DISTANT_PAST, DISTANT_FUTURE)]
  }

  function StubRoster(): Roster {
    Roster(
      map[
        "dealer-1" := [
          TechnicianEntry(Technician("tech-1", ["brake-certified"], 3.5), []),
          TechnicianEntry(Technician("tech-2", ["brake-certified", "diagnostics-certified"], 4.8), []),
          TechnicianEntry(Technician("tech-3", [], 4.0), [])],
        "dealer-solo" := [TechnicianEntry(Technician("solo-tech-1", ["brake-certified"], 4.0), [])],
        "dealer-offday" := [TechnicianEntry(Technician("offday-tech-1", ["brake-certified"], 4.0), AlwaysOff())],
        "dealer-maintenance" := [TechnicianEntry(Technician("maintenance-tech-1", ["brake-certified"], 4.0), [])]],
      map[
        "dealer-1" := [BayEntry(ServiceBay("bay-1"), []), BayEntry(ServiceBay("bay-2"), [])],
        "dealer-solo" := [BayEntry(ServiceBay("solo-bay-1"), [])],
        "dealer-offday" := [BayEntry(ServiceBay("offday-bay-1"), [])],
        "dealer-maintenance" := [BayEntry(ServiceBay("maintenance-bay-1"), AlwaysOff())]])
  }

  function StubCatalog(): map<string, CatalogEntry> {
    map["oil-change" := CatalogEntry(HOUR, []),
        "brake-service" := CatalogEntry(2 * HOUR, ["brake-certified"]),
        "diagnostics" := CatalogEntry(90 * MINUTE, ["diagnostics-certified"])]
  }

  function StubConfig(): Config {
    Config(FactoryConfig(0, 0, 0), StubCatalog(), StubRoster())
  }

  // ---- What the fixtures answer ----

  const TECH_1 := Technician("tech-1", ["brake-certified"], 3.5)
  const TECH_2 := Technician("tech-2", ["brake-certified", "diagnostics-certified"], 4.8)
  const TECH_3 := Technician("tech-3", [], 4.0)

  /** Dealership dealer-1: who can change the oil, service the brakes and do the diagnostics. */
  lemma DealerOneLists(start: Time, end: Time)
    ensures var entries := StubRoster().TechnicianEntries("dealer-1");
            && EligibleTechnicians(entries, [], start, end) == [TECH_1, TECH_2, TECH_3]
            && EligibleTechnicians(entries, ["brake-certified"], start, end) == [TECH_1, TECH_2]
            && EligibleTechnicians(entries, ["diagnostics-certified"], start, end) == [TECH_2]
    ensures EligibleBays(StubRoster().BayEntries("dealer-1"), start, end) == [ServiceBay("bay-1"), ServiceBay("bay-2")]
  {
    var entries := [TechnicianEntry(TECH_1, []), TechnicianEntry(TECH_2, []), TechnicianEntry(TECH_3, [])];
    var bays := [BayEntry(ServiceBay("bay-1"), []), BayEntry(ServiceBay("bay-2"), [])];
    assert StubRoster().TechnicianEntries("dealer-1") == entries && StubRoster().BayEntries("dealer-1") == bays;
    hide StubRoster;
    DealerOneQualified(start, end);
    ThreeEntries(entries[0], entries[1], entries[2], [], start, end);
    ThreeEntries(entries[0], entries[1], entries[2], ["brake-certified"], start, end);
    ThreeEntries(entries[0], entries[1], entries[2], ["diagnostics-certified"], start, end);
    assert [bays[0]][..0] == [] && bays[..1] == [bays[0]];
    assert EligibleBays([bays[0]], start, end) == [bays[0].bay];
  }

  lemma DealerOneQualified(start: Time, end: Time)
    ensures forall t | t in [TECH_1, TECH_2, TECH_3] :: Qualified(TechnicianEntry(t, []), [], start, end)
    ensures Qualified(TechnicianEntry(TECH_1, []), ["brake-certified"], start, end)
    ensures Qualified(TechnicianEntry(TECH_2, []), ["brake-certified"], start, end)
    ensures !Qualified(TechnicianEntry(TECH_3, []), ["brake-certified"], start, end)
    ensures !Qualified(TechnicianEntry(TECH_1, []), ["diagnostics-certified"], start, end)
    ensures Qualified(TechnicianEntry(TECH_2, []), ["diagnostics-certified"], start, end)
    ensures !Qualified(TechnicianEntry(TECH_3, []), ["diagnostics-certified"], start, end)
  {
    assert |"diagnostics-certified"| != |"brake-certified"|;
    assert "brake-certified" in ["brake-certified"] && "diagnostics-certified" in ["diagnostics-certified"];
    assert TECH_2.certifications[0] == "brake-certified" && TECH_2.certifications[1] == "diagnostics-certified";
  }

  lemma ThreeEntries(
    e0: TechnicianEntry, e1: TechnicianEntry, e2: TechnicianEntry, required: seq<string>, start: Time, end: Time)
    ensures EligibleTechnicians([e0, e1, e2], required, start, end) ==
            (if Qualified(e0, required, start, end) then [e0.technician] else [])
            + (if Qualified(e1, required, start, end) then [e1.technician] else [])
            + (if Qualified(e2, required, start, end) then [e2.technician] else [])
  {
    hide Qualified;
    var all := [e0, e1, e2];
    assert [e0][..0] == [] && [e0, e1][..1] == [e0] && all[..2] == [e0, e1];
    assert EligibleTechnicians([e0], required, start, end) ==
           if Qualified(e0, required, start, end) then [e0.technician] else [];
    assert EligibleTechnicians([e0, e1], required, start, end) ==
           EligibleTechnicians([e0], required, start, end)
           + if Qualified(e1, required, start, end) then [e1.technician] else [];
  }

  /** Nobody at an unknown dealership; nobody, or no bay, where the only one is always off: for
      any window that is not over by 1970 and begins before the year 3000. */
  lemma UnavailableLists(dealership: string, required: seq<string>, start: Time, end: Time)
    ensures dealership !in ["dealer-1", "dealer-solo", "dealer-offday", "dealer-maintenance"] ==>
              EligibleTechnicians(StubRoster().TechnicianEntries(dealership), required, start, end) == []
              && EligibleBays(StubRoster().BayEntries(dealership), start, end) == []
    ensures 0 < end && start < 32_503_680_000_000_000_000 ==>
              EligibleTechnicians(StubRoster().TechnicianEntries("dealer-offday"), required, start, end) == []
              && EligibleBays(StubRoster().BayEntries("dealer-maintenance"), start, end) == []
  {
    var off := AlwaysOff();
    assert off[0] in off && off[0] == Blackout(0, 32_503_680_000_000_000_000);
    var entries := [TechnicianEntry(Technician("offday-tech-1", ["brake-certified"], 4.0), off)];
    var bays := [BayEntry(ServiceBay("maintenance-bay-1"), off)];
    assert StubRoster().TechnicianEntries("dealer-offday") == entries;
    assert StubRoster().BayEntries("dealer-maintenance") == bays;
    assert entries[..0] == [] && bays[..0] == [];
  }

  /** At dealer-1 with tech-2 and bay-1 busy, an oil change gets tech-3 on bay-2. */
  lemma NextBestIsBooked(
    c: BookCommand, x: Uuid, sorted: seq<Technician>, now: Time, a: Uuid, r: Uuid)
    requires c.dealership == "dealer-1" && c.serviceType == "oil-change" && !IsBlank(c.key)
    requires SortedByScore(sorted, [TECH_1, TECH_2, TECH_3])
    ensures c.serviceType in StubCatalog()
    ensures ListedTechnicians(StubCatalog(), StubRoster(), c) == [TECH_1, TECH_2, TECH_3]
    ensures var plan := PlanOf(StubCatalog(), StubRoster(), c, x, sorted, now);
            var decision := CreateFn(StubConfig().Factory(), plan, {"tech-2"}, {"bay-1"}, now, a, r);
            decision.Stage? && decision.write.Insert? && decision.write.details.technician == "tech-3"
            && decision.write.details.bay == "bay-2"
  {
    OilChangeAtDealerOne(c);
    var plan := PlanOf(StubCatalog(), StubRoster(), c, x, sorted, now);
    SortedByHand(sorted);
    PicksTheNext(plan);
    hide StubRoster, StubCatalog, ListedTechnicians, ListedBays, IsBlank, FirstFree, TechnicianIds, BayIds,
         NewBookingFactory;
  }

  lemma OilChangeAtDealerOne(c: BookCommand)
    requires c.dealership == "dealer-1" && c.serviceType == "oil-change"
    ensures c.serviceType in StubCatalog() && StubCatalog()[c.serviceType] == CatalogEntry(HOUR, [])
    ensures ListedTechnicians(StubCatalog(), StubRoster(), c) == [TECH_1, TECH_2, TECH_3]
    ensures ListedBays(StubCatalog(), StubRoster(), c) == [ServiceBay("bay-1"), ServiceBay("bay-2")]
  {
    DealerOneLists(c.start, c.start + HOUR);
    assert StubCatalog()["oil-change"] == CatalogEntry(HOUR, []);
    hide StubRoster, StubCatalog, EligibleTechnicians, EligibleBays;
  }

  lemma PicksTheNext(plan: Plan)
    requires plan.technicians == [TECH_2, TECH_3, TECH_1] && plan.bays == [ServiceBay("bay-1"), ServiceBay("bay-2")]
    ensures FirstFree(TechnicianIds(plan.technicians), {"tech-2"}) == "tech-3"
    ensures FirstFree(BayIds(plan.bays), {"bay-1"}) == "bay-2"
  {
    var ids, bayIds := TechnicianIds(plan.technicians), BayIds(plan.bays);
    assert ids[0] == "tech-2" && ids[1] == "tech-3" && bayIds[0] == "bay-1" && bayIds[1] == "bay-2";
    assert ids[1..][0] == "tech-3" && bayIds[1..][0] == "bay-2";
    hide TechnicianIds, BayIds;
  }

  /** The three have different scores, so there is one way to sort them. */
  lemma SortedByHand(sorted: seq<Technician>)
    requires SortedByScore(sorted, [TECH_1, TECH_2, TECH_3])
    ensures sorted == [TECH_2, TECH_3, TECH_1]
  {
    var all := [TECH_1, TECH_2, TECH_3];
    assert |sorted| == |multiset(sorted)| == |multiset(all)| == 3;
    assert TECH_1 in multiset(all) && TECH_2 in multiset(all) && TECH_3 in multiset(all);
    assert TECH_1 in sorted && TECH_2 in sorted && TECH_3 in sorted;
  }

  const SOLO: seq<Technician> := [Technician("solo-tech-1", ["brake-certified"], 4.0)]

  // ---- The dealership with a single technician ----

  /** A request at the single-technician dealership that passes the builder's checks. */
  predicate AsksSolo(c: BookCommand, now: Time) {
    && c.dealership == "dealer-solo" && c.user != "" && !IsBlank(c.key)
    && c.start != ZERO_TIME && now + HOUR <= c.start <= now + 30 * 24 * HOUR
  }

  lemma SoloLists(required: seq<string>, start: Time, end: Time)
    ensures EligibleTechnicians(StubRoster().TechnicianEntries("dealer-solo"), required, start, end) ==
            if HasAllCertifications(SOLO[0], required) then SOLO else []
    ensures EligibleBays(StubRoster().BayEntries("dealer-solo"), start, end) == [ServiceBay("solo-bay-1")]
  {
    var entries := [TechnicianEntry(SOLO[0], [])];
    var bays := [BayEntry(ServiceBay("solo-bay-1"), [])];
    assert StubRoster().TechnicianEntries("dealer-solo") == entries && StubRoster().BayEntries("dealer-solo") == bays;
    assert entries[..0] == [] && bays[..0] == [];
  }

  /** The catalog: an hour, two hours and an hour and a half, and a certification for each of the
      latter two. The technician can do every service of it but the diagnostics. */
  lemma SoloServices()
    ensures StubCatalog().Keys == {"oil-change", "brake-service", "diagnostics"}
    ensures StubCatalog()["oil-change"] == CatalogEntry(3_600_000_000_000, [])
    ensures StubCatalog()["brake-service"] == CatalogEntry(7_200_000_000_000, ["brake-certified"])
    ensures StubCatalog()["diagnostics"] == CatalogEntry(5_400_000_000_000, ["diagnostics-certified"])
    ensures forall k | k in StubCatalog() :: StubCatalog()[k].duration > 0
    ensures forall k | k in StubCatalog() ::
              HasAllCertifications(SOLO[0], StubCatalog()[k].requiredCertifications) <==> k != "diagnostics"
  {
    assert |"diagnostics-certified"| != |"brake-certified"|;
    assert StubCatalog()["diagnostics"].requiredCertifications == ["diagnostics-certified"];
    assert "diagnostics-certified" in StubCatalog()["diagnostics"].requiredCertifications;
    assert SOLO[0].certifications == ["brake-certified"];
  }

  /** Inside the lead times, just the oil change and the brake service can be booked there. */
  lemma SoloIsBookable(c: BookCommand, now: Time)
    requires AsksSolo(c, now)
    ensures Bookable(StubConfig(), c, SOLO, now) <==> c.serviceType == "oil-change" || c.serviceType == "brake-service"
  {
    hide IsBlank, HasAllCertifications, EligibleTechnicians, EligibleBays, StubRoster, StubCatalog, BuilderErrors,
         StartTimeErrorDetail, NewBookingFactory, CreateReservation, TrimSpace;
    SoloServices();
    SettingsInForce(StubConfig().settings, c.start, now, 0, 0, c.key, now);
    WellFormedHasNoErrors(StubConfig().settings, c, now);
    if c.serviceType in StubCatalog() {
      var entry := StubCatalog()[c.serviceType];
      SoloLists(entry.requiredCertifications, c.start, c.start + entry.duration);
    }
  }

  lemma SoloBay(c: BookCommand)
    requires c.dealership == "dealer-solo" && c.serviceType in StubCatalog()
    ensures ListedBays(StubConfig().catalog, StubConfig().roster, c) == [ServiceBay("solo-bay-1")]
  {
    hide StubCatalog, StubRoster, EligibleBays;
    var entry := StubCatalog()[c.serviceType];
    SoloLists(entry.requiredCertifications, c.start, c.start + entry.duration);
  }

  /** For either service and any start at least an hour and five minutes away, some run books
      the technician and the bay twice for that very service and start: SYSTEM_DESIGN's "no
      concurrent-write-skew risk" for confirms does not hold of the code without the deadline. */
  lemma SoloCanBeDoubleBooked(c: BookCommand, now: Time) returns (w: World)
    requires AsksSolo(c, now) && c.start >= now + HOUR + 5 * MINUTE
    requires c.serviceType == "oil-change" || c.serviceType == "brake-service"
    ensures Reachable(StubConfig(), w) && ConfirmedBy(w, 1) && !NoDoubleBooking(w)
    ensures BookedTwice(w, c, "solo-tech-1", "solo-bay-1")
  {
    SoloServices();
    hide StubCatalog;
    SoloBay(c);
    hide ListedBays, Reachable, NoDoubleBooking, ConfirmedBy, DoubleBooked, Bookable, StubRoster, StubCatalog, IsBlank,
         BookedTwice;
    SoloIsBookable(c, now);
    SoloIsBookable(c, now + 5 * MINUTE);
    StaffedByBookable(StubConfig(), c, SOLO, now);
    AnotherKeyBookable(StubConfig(), c, SOLO, now + 5 * MINUTE);
    LateConfirmDoubleBooks(StubConfig(), c, SOLO, now);
    w := DoubleBooked(StubConfig(), c, SOLO, now);
  }

  lemma StaffedByBookable(cfg: Config, c: BookCommand, sorted: seq<Technician>, now: Time)
    requires Bookable(cfg, c, sorted, now)
    ensures Staffed(cfg, c, sorted)
  {
  }
}
