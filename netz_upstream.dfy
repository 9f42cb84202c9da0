/** The upstream protection chain of src/logic/netzUpstream.ts: the devices
    between the supply and a distribution board, in the fixed order supply,
    meter pre-fuse, surge protection before the meter, meter, surge
    protection after the meter, main switch; and the lookups of the supply
    configurations that feed a board. */
module NetzUpstream {
  import opened Common

  // ---------------------------------------------------------------------------
  // Entities (reconstructed from the fields the chain reads).
  // ---------------------------------------------------------------------------

  datatype UpstreamSlot =
    | Einspeisung
    | Zaehlervorsicherung
    | Zaehler
    | Hauptschalter
    | Ueberspannungsschutz
    | SpdVorsicherung

  datatype CabinetDevice = CabinetDevice(id: string, labelText: string, teWidth: int)

  /** `device: CabinetDevice | undefined` is an Option. */
  datatype UpstreamDevice = UpstreamDevice(
    slot: UpstreamSlot,
    labelText: string,
    sublabelText: string,
    device: Option<CabinetDevice>,
    teWidth: int)

  datatype SpdPosition = VorZaehler | NachZaehler

  datatype EinspeisungConfig = EinspeisungConfig(netzform: string, alsKlemmenblock: bool)

  /** A fuse or switch with a rating (pre-fuse and main switch). */
  datatype SchutzConfig = SchutzConfig(enabled: bool, ampere: int, deviceId: string)

  datatype ZaehlerConfig = ZaehlerConfig(enabled: bool, deviceId: string)

  datatype VorsicherungConfig = VorsicherungConfig(enabled: bool, ampere: int)

  datatype SpdConfig = SpdConfig(enabled: bool, position: SpdPosition, deviceId: string, vorsicherung: VorsicherungConfig)

  datatype NetzKonfiguration = NetzKonfiguration(
    id: string,
    verteilerIds: seq<string>,
    einspeisung: EinspeisungConfig,
    zaehlervorsicherung: SchutzConfig,
    zaehler: ZaehlerConfig,
    hauptschalter: SchutzConfig,
    ueberspannungsschutz: SpdConfig)

  /** `findDevice` of the cabinet catalog, which is not part of this model. */
  type DeviceCatalog = string -> Option<CabinetDevice>

  /** `NETZFORM_LABELS`, which is not part of this model. */
  type NetzformLabels = string -> string

  // ---------------------------------------------------------------------------
  // Lookups by board.
  // ---------------------------------------------------------------------------

  function Feeds(verteilerId: string): NetzKonfiguration -> bool
  {
    (n: NetzKonfiguration) => verteilerId in n.verteilerIds
  }

  /** `findAllNetzeForVerteiler`: the configurations feeding the board, in order and
      multiplicity. */
  function FindAllNetzeForVerteiler(netze: seq<NetzKonfiguration>, verteilerId: string): (r: seq<NetzKonfiguration>)
    ensures IsSubsequence(r, netze)
    ensures forall n :: n in r <==> n in netze && verteilerId in n.verteilerIds
    ensures forall n :: multiset(r)[n] == if verteilerId in n.verteilerIds then multiset(netze)[n] else 0
  {
    FilterSpec(netze, Feeds(verteilerId));
    FilterCount(netze, Feeds(verteilerId));
    Filter(netze, Feeds(verteilerId))
  }

  /** `findNetzForVerteiler`: the first configuration feeding the board. */
  function FindNetzForVerteiler(netze: seq<NetzKonfiguration>, verteilerId: string): (r: Option<NetzKonfiguration>)
    ensures r.None? <==> forall i :: 0 <= i < |netze| ==> verteilerId !in netze[i].verteilerIds
    ensures r.Some? ==> exists i :: 0 <= i < |netze| && netze[i] == r.value && verteilerId in r.value.verteilerIds
                                    && forall j :: 0 <= j < i ==> verteilerId !in netze[j].verteilerIds
  {
    if |netze| == 0 then None
    else if verteilerId in netze[0].verteilerIds then Some(netze[0])
    else
      var r := FindNetzForVerteiler(netze[1..], verteilerId);
      assert forall i :: 0 < i < |netze| ==> netze[i] == netze[1..][i - 1];
      assert r.Some? ==> exists i :: 0 <= i < |netze[1..]| && netze[1..][i] == r.value
                                     && forall j :: 0 <= j < i ==> verteilerId !in netze[1..][j].verteilerIds;
      r
  }

  /** The first match is the head of all matches, and there is none exactly
      when there are no matches. */
  lemma {:induction false} FindNetzIsFirstOfAll(netze: seq<NetzKonfiguration>, verteilerId: string)
    ensures var all := FindAllNetzeForVerteiler(netze, verteilerId);
      && (FindNetzForVerteiler(netze, verteilerId).None? <==> |all| == 0)
      && (|all| > 0 ==> FindNetzForVerteiler(netze, verteilerId) == Some(all[0]))
  {
    if |netze| > 0 {
      FindNetzIsFirstOfAll(netze[1..], verteilerId);
      assert Feeds(verteilerId)(netze[0]) == (verteilerId in netze[0].verteilerIds);
    }
  }

  // ---------------------------------------------------------------------------
  // The chain.
  // ---------------------------------------------------------------------------

  /** The catalog device's label, or the fallback when the device is missing. */
  function LabelOr(dev: Option<CabinetDevice>, fallback: string): string
  {
    if dev.Some? then dev.value.labelText else fallback
  }

  /** The catalog device's width in modules, or the fallback when the device is
      missing. */
  function WidthOr(dev: Option<CabinetDevice>, fallback: int): int
  {
    if dev.Some? then dev.value.teWidth else fallback
  }

  /** The current in decimal followed by `A`. */
  function AmpereText(ampere: int): string
  {
    IntToString(ampere) + "A"
  }

  function EinspeisungEntry(e: EinspeisungConfig, labels: NetzformLabels): UpstreamDevice
  {
    UpstreamDevice(Einspeisung, "Einspeisung", labels(e.netzform) + (if e.alsKlemmenblock then " (KB)" else ""), None, 0)
  }

  function SlsEntry(zv: SchutzConfig, find: DeviceCatalog): UpstreamDevice
  {
    var dev := find(zv.deviceId);
    UpstreamDevice(Zaehlervorsicherung, LabelOr(dev, "SLS"), AmpereText(zv.ampere), dev, WidthOr(dev, 3))
  }

  function ZaehlerEntry(z: ZaehlerConfig, find: DeviceCatalog): UpstreamDevice
  {
    var dev := find(z.deviceId);
    UpstreamDevice(Zaehler, LabelOr(dev, "Zähler"), "", dev, WidthOr(dev, 4))
  }

  function HauptschalterEntry(h: SchutzConfig, find: DeviceCatalog): UpstreamDevice
  {
    var dev := find(h.deviceId);
    UpstreamDevice(Hauptschalter, LabelOr(dev, "Hauptschalter"), AmpereText(h.ampere), dev, WidthOr(dev, 3))
  }

  function SpdText(p: SpdPosition): string
  {
    if p == VorZaehler then "vor Zähler" else "nach Zähler"
  }

  /** The SPD group: its own pre-fuse when enabled, then the SPD. */
  function SpdEntries(spd: SpdConfig, find: DeviceCatalog): seq<UpstreamDevice>
  {
    var dev := find(spd.deviceId);
    (if spd.vorsicherung.enabled
     then [UpstreamDevice(SpdVorsicherung, "Vorsicherung SPD", AmpereText(spd.vorsicherung.ampere), None, 1)]
     else [])
    + [UpstreamDevice(Ueberspannungsschutz, LabelOr(dev, "SPD"), SpdText(spd.position), dev, WidthOr(dev, 4))]
  }

  function SlsStage(zv: SchutzConfig, find: DeviceCatalog): seq<UpstreamDevice>
  {
    if zv.enabled then [SlsEntry(zv, find)] else []
  }

  /** The SPD group when the SPD is enabled and sits at `at`. */
  function SpdStage(spd: SpdConfig, at: SpdPosition, find: DeviceCatalog): seq<UpstreamDevice>
  {
    if spd.enabled && spd.position == at then SpdEntries(spd, find) else []
  }

  function ZaehlerStage(z: ZaehlerConfig, find: DeviceCatalog): seq<UpstreamDevice>
  {
    if z.enabled then [ZaehlerEntry(z, find)] else []
  }

  function HauptschalterStage(h: SchutzConfig, find: DeviceCatalog): seq<UpstreamDevice>
  {
    if h.enabled then [HauptschalterEntry(h, find)] else []
  }

  /** Reference definition of the chain, stage by stage. */
  function UpstreamChain(netz: NetzKonfiguration, find: DeviceCatalog, labels: NetzformLabels): seq<UpstreamDevice>
  {
    [EinspeisungEntry(netz.einspeisung, labels)]
    + SlsStage(netz.zaehlervorsicherung, find)
    + SpdStage(netz.ueberspannungsschutz, VorZaehler, find)
    + ZaehlerStage(netz.zaehler, find)
    + SpdStage(netz.ueberspannungsschutz, NachZaehler, find)
    + HauptschalterStage(netz.hauptschalter, find)
  }

  /** `resolveUpstreamDevices`: pushes each enabled stage in order. */
  method ResolveUpstreamDevices(netz: NetzKonfiguration, find: DeviceCatalog, labels: NetzformLabels)
    returns (devices: seq<UpstreamDevice>)
    ensures devices == UpstreamChain(netz, find, labels)
  {
    var einspeisung, zaehlervorsicherung, zaehler, hauptschalter, ueberspannungsschutz :=
      netz.einspeisung, netz.zaehlervorsicherung, netz.zaehler, netz.hauptschalter, netz.ueberspannungsschutz;
    ghost var s1 := [EinspeisungEntry(einspeisung, labels)];
    ghost var s2 := SlsStage(zaehlervorsicherung, find);
    ghost var s3 := SpdStage(ueberspannungsschutz, VorZaehler, find);
    ghost var s4 := ZaehlerStage(zaehler, find);
    ghost var s5 := SpdStage(ueberspannungsschutz, NachZaehler, find);
    ghost var s6 := HauptschalterStage(hauptschalter, find);

    devices := [];
    devices := devices + [UpstreamDevice(
      Einspeisung, "Einspeisung",
      labels(einspeisung.netzform) + (if einspeisung.alsKlemmenblock then " (KB)" else ""),
      None, 0)];
    assert devices == s1;
    if zaehlervorsicherung.enabled {
      var dev := find(zaehlervorsicherung.deviceId);
      devices := devices + [UpstreamDevice(
        Zaehlervorsicherung, LabelOr(dev, "SLS"), AmpereText(zaehlervorsicherung.ampere), dev, WidthOr(dev, 3))];
    } else {
      assert devices == devices + s2;
    }
    assert devices == s1 + s2;
    if ueberspannungsschutz.enabled && ueberspannungsschutz.position == VorZaehler {
      devices := PushSpdDevices(devices, ueberspannungsschutz, find);
    } else {
      assert devices == devices + s3;
    }
    assert devices == s1 + s2 + s3;
    if zaehler.enabled {
      var dev := find(zaehler.deviceId);
      devices := devices + [UpstreamDevice(Zaehler, LabelOr(dev, "Zähler"), "", dev, WidthOr(dev, 4))];
    } else {
      assert devices == devices + s4;
    }
    assert devices == s1 + s2 + s3 + s4;
    if ueberspannungsschutz.enabled && ueberspannungsschutz.position == NachZaehler {
      devices := PushSpdDevices(devices, ueberspannungsschutz, find);
    } else {
      assert devices == devices + s5;
    }
    assert devices == s1 + s2 + s3 + s4 + s5;
    if hauptschalter.enabled {
      var dev := find(hauptschalter.deviceId);
      devices := devices + [UpstreamDevice(
        Hauptschalter, LabelOr(dev, "Hauptschalter"), AmpereText(hauptschalter.ampere), dev, WidthOr(dev, 3))];
    } else {
      assert devices == devices + s6;
    }
  }

  /** `pushSpdDevices`: appends the SPD group to the devices so far. */
  method PushSpdDevices(devices: seq<UpstreamDevice>, spd: SpdConfig, find: DeviceCatalog)
    returns (result: seq<UpstreamDevice>)
    ensures result == devices + SpdEntries(spd, find)
  {
    result := devices;
    if spd.vorsicherung.enabled {
      result := result + [UpstreamDevice(SpdVorsicherung, "Vorsicherung SPD", AmpereText(spd.vorsicherung.ampere), None, 1)];
    }
    var dev := find(spd.deviceId);
    result := result + [UpstreamDevice(Ueberspannungsschutz, LabelOr(dev, "SPD"), SpdText(spd.position), dev, WidthOr(dev, 4))];
  }

  // ---------------------------------------------------------------------------
  // What the chain promises.
  // ---------------------------------------------------------------------------

  function Slots(ds: seq<UpstreamDevice>): seq<UpstreamSlot>
  {
    if |ds| == 0 then [] else [ds[0].slot] + Slots(ds[1..])
  }

  lemma {:induction false} SlotsAppend(a: seq<UpstreamDevice>, b: seq<UpstreamDevice>)
    ensures Slots(a + b) == Slots(a) + Slots(b)
  {
    if |a| == 0 {
      assert a + b == b;
    } else {
      SlotsAppend(a[1..], b);
      assert (a + b)[1..] == a[1..] + b;
    }
  }

  lemma {:induction false} SlotsIndex(ds: seq<UpstreamDevice>)
    ensures |Slots(ds)| == |ds|
    ensures forall i :: 0 <= i < |ds| ==> Slots(ds)[i] == ds[i].slot
  {
    if |ds| > 0 { SlotsIndex(ds[1..]); }
  }

  /** The order in which the stages may appear. */
  const SlotOrder: seq<UpstreamSlot> := [
    Einspeisung, Zaehlervorsicherung, SpdVorsicherung, Ueberspannungsschutz,
    Zaehler, SpdVorsicherung, Ueberspannungsschutz, Hauptschalter]

  function OptSlot(enabled: bool, slot: UpstreamSlot): seq<UpstreamSlot>
  {
    if enabled then [slot] else []
  }

  function SpdSlots(spd: SpdConfig, at: SpdPosition): seq<UpstreamSlot>
  {
    if spd.enabled && spd.position == at then OptSlot(spd.vorsicherung.enabled, SpdVorsicherung) + [Ueberspannungsschutz] else []
  }

  /** The slots the flags switch on, in stage order. */
  function SlotPlan(netz: NetzKonfiguration): seq<UpstreamSlot>
  {
    [Einspeisung]
    + OptSlot(netz.zaehlervorsicherung.enabled, Zaehlervorsicherung)
    + SpdSlots(netz.ueberspannungsschutz, VorZaehler)
    + OptSlot(netz.zaehler.enabled, Zaehler)
    + SpdSlots(netz.ueberspannungsschutz, NachZaehler)
    + OptSlot(netz.hauptschalter.enabled, Hauptschalter)
  }

  lemma SpdStageSlots(spd: SpdConfig, at: SpdPosition, find: DeviceCatalog)
    ensures Slots(SpdStage(spd, at, find)) == SpdSlots(spd, at)
  {
    if spd.enabled && spd.position == at {
      var dev := find(spd.deviceId);
      var fuse := if spd.vorsicherung.enabled
                  then [UpstreamDevice(SpdVorsicherung, "Vorsicherung SPD", AmpereText(spd.vorsicherung.ampere), None, 1)]
                  else [];
      var main := UpstreamDevice(Ueberspannungsschutz, LabelOr(dev, "SPD"), SpdText(spd.position), dev, WidthOr(dev, 4));
      SlotsAppend(fuse, [main]);
      SingleSlot(main);
      if spd.vorsicherung.enabled {
        SingleSlot(fuse[0]);
      }
    }
  }

  lemma SlotsOfSix(s1: seq<UpstreamDevice>, s2: seq<UpstreamDevice>, s3: seq<UpstreamDevice>,
                   s4: seq<UpstreamDevice>, s5: seq<UpstreamDevice>, s6: seq<UpstreamDevice>)
    ensures Slots(s1 + s2 + s3 + s4 + s5 + s6)
         == Slots(s1) + Slots(s2) + Slots(s3) + Slots(s4) + Slots(s5) + Slots(s6)
  {
    SlotsAppend(s1, s2);
    SlotsAppend(s1 + s2, s3);
    SlotsAppend(s1 + s2 + s3, s4);
    SlotsAppend(s1 + s2 + s3 + s4, s5);
    SlotsAppend(s1 + s2 + s3 + s4 + s5, s6);
  }

  lemma SingleSlot(d: UpstreamDevice)
    ensures Slots([d]) == [d.slot]
  {
    assert [d][1..] == [];
  }

  /** The chain has exactly the slots of the plan. */
  lemma ChainSlots(netz: NetzKonfiguration, find: DeviceCatalog, labels: NetzformLabels)
    ensures Slots(UpstreamChain(netz, find, labels)) == SlotPlan(netz)
  {
    SlotsOfSix([EinspeisungEntry(netz.einspeisung, labels)], SlsStage(netz.zaehlervorsicherung, find),
               SpdStage(netz.ueberspannungsschutz, VorZaehler, find), ZaehlerStage(netz.zaehler, find),
               SpdStage(netz.ueberspannungsschutz, NachZaehler, find), HauptschalterStage(netz.hauptschalter, find));
    SingleSlot(EinspeisungEntry(netz.einspeisung, labels));
    SingleSlot(SlsEntry(netz.zaehlervorsicherung, find));
    SingleSlot(ZaehlerEntry(netz.zaehler, find));
    SingleSlot(HauptschalterEntry(netz.hauptschalter, find));
    SpdStageSlots(netz.ueberspannungsschutz, VorZaehler, find);
    SpdStageSlots(netz.ueberspannungsschutz, NachZaehler, find);
  }

  lemma OptSlotSubsequence(enabled: bool, slot: UpstreamSlot)
    ensures IsSubsequence(OptSlot(enabled, slot), [slot])
  {
    if enabled {
      assert [slot][1..] == [];
    }
  }

  lemma SpdSlotsSubsequence(spd: SpdConfig, at: SpdPosition)
    ensures IsSubsequence(SpdSlots(spd, at), [SpdVorsicherung, Ueberspannungsschutz])
  {
    var group := [SpdVorsicherung, Ueberspannungsschutz];
    assert group[1..] == [Ueberspannungsschutz];
    OptSlotSubsequence(true, Ueberspannungsschutz);
    if spd.enabled && spd.position == at && !spd.vorsicherung.enabled {
      assert SpdSlots(spd, at) == [Ueberspannungsschutz];
    }
  }

  /** The plan follows the stage order. */
  lemma PlanSubsequence(netz: NetzKonfiguration)
    ensures IsSubsequence(SlotPlan(netz), SlotOrder)
  {
    var spd := netz.ueberspannungsschutz;
    var p2 := OptSlot(netz.zaehlervorsicherung.enabled, Zaehlervorsicherung);
    var p3 := SpdSlots(spd, VorZaehler);
    var p4 := OptSlot(netz.zaehler.enabled, Zaehler);
    var p5 := SpdSlots(spd, NachZaehler);
    var p6 := OptSlot(netz.hauptschalter.enabled, Hauptschalter);
    var group := [SpdVorsicherung, Ueberspannungsschutz];
    OptSlotSubsequence(true, Einspeisung);
    OptSlotSubsequence(netz.zaehlervorsicherung.enabled, Zaehlervorsicherung);
    OptSlotSubsequence(netz.zaehler.enabled, Zaehler);
    OptSlotSubsequence(netz.hauptschalter.enabled, Hauptschalter);
    SpdSlotsSubsequence(spd, VorZaehler);
    SpdSlotsSubsequence(spd, NachZaehler);
    SubsequenceAppend([Einspeisung], [Einspeisung], p2, [Zaehlervorsicherung]);
    SubsequenceAppend([Einspeisung] + p2, SlotOrder[..2], p3, group);
    assert SlotOrder[..2] + group == SlotOrder[..4];
    SubsequenceAppend([Einspeisung] + p2 + p3, SlotOrder[..4], p4, [Zaehler]);
    assert SlotOrder[..4] + [Zaehler] == SlotOrder[..5];
    SubsequenceAppend([Einspeisung] + p2 + p3 + p4, SlotOrder[..5], p5, group);
    assert SlotOrder[..5] + group == SlotOrder[..7];
    SubsequenceAppend([Einspeisung] + p2 + p3 + p4 + p5, SlotOrder[..7], p6, [Hauptschalter]);
    assert SlotOrder[..7] + [Hauptschalter] == SlotOrder;
  }

  lemma SixPieces<T>(p1: seq<T>, p2: seq<T>, p3: seq<T>, p4: seq<T>, p5: seq<T>, p6: seq<T>)
    ensures p1 + p2 + p3 + p4 + p5 + p6 == p1 + (p2 + p3 + p4 + p5 + p6)
    ensures |p2 + p3 + p4 + p5 + p6| == |p2| + |p3| + |p4| + |p5| + |p6|
  {
  }

  lemma OptSlotCount(enabled: bool, slot: UpstreamSlot)
    ensures |OptSlot(enabled, slot)| <= 1
    ensures forall x :: multiset(OptSlot(enabled, slot))[x] == if enabled && x == slot then 1 else 0
  {
  }

  /** The SPD group is at most a pre-fuse and the SPD, and it is switched on
      at one position only. */
  lemma SpdSlotsCount(spd: SpdConfig)
    ensures |SpdSlots(spd, VorZaehler)| + |SpdSlots(spd, NachZaehler)| <= 2
    ensures forall x :: x != SpdVorsicherung && x != Ueberspannungsschutz ==>
              multiset(SpdSlots(spd, VorZaehler))[x] == 0 && multiset(SpdSlots(spd, NachZaehler))[x] == 0
  {
  }

  lemma PlanCount(netz: NetzKonfiguration, x: UpstreamSlot)
    ensures x != SpdVorsicherung && x != Ueberspannungsschutz ==>
      multiset(SlotPlan(netz))[x]
      == (if x == Einspeisung then 1 else 0)
         + (if netz.zaehlervorsicherung.enabled && x == Zaehlervorsicherung then 1 else 0)
         + (if netz.zaehler.enabled && x == Zaehler then 1 else 0)
         + (if netz.hauptschalter.enabled && x == Hauptschalter then 1 else 0)
  {
    if x != SpdVorsicherung && x != Ueberspannungsschutz {
      var spd := netz.ueberspannungsschutz;
      PlanMultiset(netz);
      NoSpdCountAt(spd, VorZaehler, x);
      NoSpdCountAt(spd, NachZaehler, x);
      SlotCountAt(netz.zaehlervorsicherung.enabled, Zaehlervorsicherung, x);
      SlotCountAt(netz.zaehler.enabled, Zaehler, x);
      SlotCountAt(netz.hauptschalter.enabled, Hauptschalter, x);
      if x == Einspeisung {
        assert multiset([Einspeisung])[x] == 1;
      } else {
        assert multiset([Einspeisung])[x] == 0;
      }
    }
  }

  /** The plan's slots, counted stage by stage. */
  lemma PlanMultiset(netz: NetzKonfiguration)
    ensures multiset(SlotPlan(netz))
         == multiset([Einspeisung])
            + multiset(OptSlot(netz.zaehlervorsicherung.enabled, Zaehlervorsicherung))
            + multiset(SpdSlots(netz.ueberspannungsschutz, VorZaehler))
            + multiset(OptSlot(netz.zaehler.enabled, Zaehler))
            + multiset(SpdSlots(netz.ueberspannungsschutz, NachZaehler))
            + multiset(OptSlot(netz.hauptschalter.enabled, Hauptschalter))
  {
  }

  lemma SlotCountAt(enabled: bool, slot: UpstreamSlot, x: UpstreamSlot)
    ensures multiset(OptSlot(enabled, slot))[x] == if enabled && x == slot then 1 else 0
  {
  }

  lemma NoSpdCountAt(spd: SpdConfig, at: SpdPosition, x: UpstreamSlot)
    requires x != SpdVorsicherung && x != Ueberspannungsschutz
    ensures multiset(SpdSlots(spd, at))[x] == 0
  {
  }

  lemma UniqueHead<T>(p: seq<T>, x: T)
    requires |p| > 0 && p[0] == x && multiset(p)[x] == 1
    ensures forall i :: 0 < i < |p| ==> p[i] != x
  {
    assert p == [p[0]] + p[1..];
  }

  lemma PlanShape(netz: NetzKonfiguration)
    ensures var p := SlotPlan(netz);
      1 <= |p| <= 6 && p[0] == Einspeisung
  {
    var spd := netz.ueberspannungsschutz;
    SixPieces([Einspeisung], OptSlot(netz.zaehlervorsicherung.enabled, Zaehlervorsicherung), SpdSlots(spd, VorZaehler),
              OptSlot(netz.zaehler.enabled, Zaehler), SpdSlots(spd, NachZaehler), OptSlot(netz.hauptschalter.enabled, Hauptschalter));
    OptSlotCount(netz.zaehlervorsicherung.enabled, Zaehlervorsicherung);
    OptSlotCount(netz.zaehler.enabled, Zaehler);
    OptSlotCount(netz.hauptschalter.enabled, Hauptschalter);
    SpdSlotsCount(spd);
  }

  /** The supply stands at the head of the plan and nowhere else. */
  lemma PlanHead(netz: NetzKonfiguration)
    ensures var p := SlotPlan(netz);
      && 1 <= |p| <= 6 && p[0] == Einspeisung
      && (forall i :: 0 < i < |p| ==> p[i] != Einspeisung)
  {
    PlanShape(netz);
    PlanCount(netz, Einspeisung);
    UniqueHead(SlotPlan(netz), Einspeisung);
  }

  /** The plan has the supply only at its head and each of pre-fuse, meter
      and main switch once exactly when enabled, in at most six slots. */
  lemma PlanCounts(netz: NetzKonfiguration)
    ensures var p := SlotPlan(netz);
      && 1 <= |p| <= 6 && p[0] == Einspeisung
      && (forall i :: 0 < i < |p| ==> p[i] != Einspeisung)
      && multiset(p)[Zaehlervorsicherung] == (if netz.zaehlervorsicherung.enabled then 1 else 0)
      && multiset(p)[Zaehler] == (if netz.zaehler.enabled then 1 else 0)
      && multiset(p)[Hauptschalter] == (if netz.hauptschalter.enabled then 1 else 0)
  {
    PlanHead(netz);
    PlanCount(netz, Zaehlervorsicherung);
    PlanCount(netz, Zaehler);
    PlanCount(netz, Hauptschalter);
  }

  /** The chain never is empty and starts with the supply, which has no
      device, width 0 and the network-form label, suffixed " (KB)" exactly
      for a terminal block; the supply appears nowhere else; the stages keep
      the fixed order; meter pre-fuse, meter and main switch appear exactly
      once when enabled and not at all otherwise; the chain has at most six
      entries. */
  lemma ChainOrder(netz: NetzKonfiguration, find: DeviceCatalog, labels: NetzformLabels)
    ensures var r := UpstreamChain(netz, find, labels);
      && 1 <= |r| <= 6
      && r[0].slot == Einspeisung && r[0].device.None? && r[0].teWidth == 0 && r[0].labelText == "Einspeisung"
      && r[0].sublabelText == labels(netz.einspeisung.netzform) + (if netz.einspeisung.alsKlemmenblock then " (KB)" else "")
      && (forall i :: 0 < i < |r| ==> r[i].slot != Einspeisung)
      && IsSubsequence(Slots(r), SlotOrder)
      && multiset(Slots(r))[Zaehlervorsicherung] == (if netz.zaehlervorsicherung.enabled then 1 else 0)
      && multiset(Slots(r))[Zaehler] == (if netz.zaehler.enabled then 1 else 0)
      && multiset(Slots(r))[Hauptschalter] == (if netz.hauptschalter.enabled then 1 else 0)
  {
    var r := UpstreamChain(netz, find, labels);
    ChainSlots(netz, find, labels);
    PlanSubsequence(netz);
    PlanCounts(netz);
    SlotsIndex(r);
    assert r[0] == EinspeisungEntry(netz.einspeisung, labels);
  }

  // ---------------------------------------------------------------------------
  // The SPD group.
  // ---------------------------------------------------------------------------

  /** The SPD group of the plan: its pre-fuse when enabled, then the SPD. */
  function SpdGroup(spd: SpdConfig): seq<UpstreamSlot>
  {
    OptSlot(spd.vorsicherung.enabled, SpdVorsicherung) + [Ueberspannungsschutz]
  }

  /** One SPD group between two runs that hold no SPD slot: the pre-fuse, if
      any, is directly followed by the SPD, each occurs as often as switched
      on, and any other slot that only one side holds lies on that side. */
  lemma GroupBetween(a: seq<UpstreamSlot>, spd: SpdConfig, b: seq<UpstreamSlot>, y: UpstreamSlot)
    requires SpdVorsicherung !in a && Ueberspannungsschutz !in a
    requires SpdVorsicherung !in b && Ueberspannungsschutz !in b
    requires y != SpdVorsicherung && y != Ueberspannungsschutz
    ensures var p := a + SpdGroup(spd) + b;
      && multiset(p)[Ueberspannungsschutz] == 1
      && multiset(p)[SpdVorsicherung] == (if spd.vorsicherung.enabled then 1 else 0)
      && (forall i :: 0 <= i < |p| && p[i] == SpdVorsicherung ==> i + 1 < |p| && p[i + 1] == Ueberspannungsschutz)
      && (forall i, j :: 0 <= i < |p| && 0 <= j < |p| && p[i] == Ueberspannungsschutz && p[j] == y ==>
            (y !in b ==> j < i) && (y !in a ==> i < j))
  {
    var g := SpdGroup(spd);
    var p := a + g + b;
    var k := |a| + |g| - 1;
    assert p[k] == Ueberspannungsschutz;
    forall i | 0 <= i < |p| && (p[i] == SpdVorsicherung || p[i] == Ueberspannungsschutz)
      ensures |a| <= i <= k
    {
    }
    forall j | 0 <= j < |p| && p[j] == y ensures (y !in b ==> j < |a|) && (y !in a ==> j > k)
    {
    }
    forall i | 0 <= i < |p| && p[i] == Ueberspannungsschutz ensures i == k
    {
    }
  }

  /** How the plan reads around the SPD group, for each setting. */
  lemma PlanVorZaehler(netz: NetzKonfiguration)
    requires netz.ueberspannungsschutz.enabled && netz.ueberspannungsschutz.position == VorZaehler
    ensures SlotPlan(netz) == ([Einspeisung] + OptSlot(netz.zaehlervorsicherung.enabled, Zaehlervorsicherung))
                              + SpdGroup(netz.ueberspannungsschutz)
                              + (OptSlot(netz.zaehler.enabled, Zaehler) + OptSlot(netz.hauptschalter.enabled, Hauptschalter))
  {
  }

  lemma PlanNachZaehler(netz: NetzKonfiguration)
    requires netz.ueberspannungsschutz.enabled && netz.ueberspannungsschutz.position == NachZaehler
    ensures SlotPlan(netz) == ([Einspeisung] + OptSlot(netz.zaehlervorsicherung.enabled, Zaehlervorsicherung)
                               + OptSlot(netz.zaehler.enabled, Zaehler))
                              + SpdGroup(netz.ueberspannungsschutz)
                              + OptSlot(netz.hauptschalter.enabled, Hauptschalter)
  {
  }

  lemma PlanWithoutSpd(netz: NetzKonfiguration)
    requires !netz.ueberspannungsschutz.enabled
    ensures SlotPlan(netz) == [Einspeisung] + OptSlot(netz.zaehlervorsicherung.enabled, Zaehlervorsicherung)
                              + OptSlot(netz.zaehler.enabled, Zaehler) + OptSlot(netz.hauptschalter.enabled, Hauptschalter)
  {
  }

  ghost predicate SpdPlaced(p: seq<UpstreamSlot>, spd: SpdConfig)
  {
    && multiset(p)[Ueberspannungsschutz] == (if spd.enabled then 1 else 0)
    && multiset(p)[SpdVorsicherung] == (if spd.enabled && spd.vorsicherung.enabled then 1 else 0)
    && (forall i :: 0 <= i < |p| && p[i] == SpdVorsicherung ==> i + 1 < |p| && p[i + 1] == Ueberspannungsschutz)
    && (forall i, j :: 0 <= i < |p| && 0 <= j < |p| && p[i] == Ueberspannungsschutz && p[j] == Zaehler ==>
          (i < j <==> spd.position == VorZaehler))
  }

  lemma NoSpdSlot(enabled: bool, slot: UpstreamSlot)
    requires slot != SpdVorsicherung && slot != Ueberspannungsschutz
    ensures SpdVorsicherung !in OptSlot(enabled, slot) && Ueberspannungsschutz !in OptSlot(enabled, slot)
  {
  }

  lemma GroupPlaced(a: seq<UpstreamSlot>, spd: SpdConfig, b: seq<UpstreamSlot>)
    requires spd.enabled
    requires SpdVorsicherung !in a && Ueberspannungsschutz !in a
    requires SpdVorsicherung !in b && Ueberspannungsschutz !in b
    requires spd.position == VorZaehler ==> Zaehler !in a
    requires spd.position == NachZaehler ==> Zaehler !in b
    ensures SpdPlaced(a + SpdGroup(spd) + b, spd)
  {
    GroupBetween(a, spd, b, Zaehler);
  }

  lemma PlanSpdVor(netz: NetzKonfiguration)
    requires netz.ueberspannungsschutz.enabled && netz.ueberspannungsschutz.position == VorZaehler
    ensures SpdPlaced(SlotPlan(netz), netz.ueberspannungsschutz)
  {
    var pre := [Einspeisung] + OptSlot(netz.zaehlervorsicherung.enabled, Zaehlervorsicherung);
    var z := OptSlot(netz.zaehler.enabled, Zaehler);
    var h := OptSlot(netz.hauptschalter.enabled, Hauptschalter);
    PlanVorZaehler(netz);
    NoSpdSlot(netz.zaehlervorsicherung.enabled, Zaehlervorsicherung);
    NoSpdSlot(netz.zaehler.enabled, Zaehler);
    NoSpdSlot(netz.hauptschalter.enabled, Hauptschalter);
    assert Zaehler !in pre;
    GroupPlaced(pre, netz.ueberspannungsschutz, z + h);
  }

  lemma PlanSpdNach(netz: NetzKonfiguration)
    requires netz.ueberspannungsschutz.enabled && netz.ueberspannungsschutz.position == NachZaehler
    ensures SpdPlaced(SlotPlan(netz), netz.ueberspannungsschutz)
  {
    var pre := [Einspeisung] + OptSlot(netz.zaehlervorsicherung.enabled, Zaehlervorsicherung);
    var z := OptSlot(netz.zaehler.enabled, Zaehler);
    var h := OptSlot(netz.hauptschalter.enabled, Hauptschalter);
    PlanNachZaehler(netz);
    NoSpdSlot(netz.zaehlervorsicherung.enabled, Zaehlervorsicherung);
    NoSpdSlot(netz.zaehler.enabled, Zaehler);
    NoSpdSlot(netz.hauptschalter.enabled, Hauptschalter);
    assert Zaehler !in h;
    GroupPlaced(pre + z, netz.ueberspannungsschutz, h);
  }

  lemma PlanSpdOff(netz: NetzKonfiguration)
    requires !netz.ueberspannungsschutz.enabled
    ensures SpdPlaced(SlotPlan(netz), netz.ueberspannungsschutz)
  {
    var pre := [Einspeisung] + OptSlot(netz.zaehlervorsicherung.enabled, Zaehlervorsicherung);
    var z := OptSlot(netz.zaehler.enabled, Zaehler);
    var h := OptSlot(netz.hauptschalter.enabled, Hauptschalter);
    PlanWithoutSpd(netz);
    NoSpdSlot(netz.zaehlervorsicherung.enabled, Zaehlervorsicherung);
    NoSpdSlot(netz.zaehler.enabled, Zaehler);
    NoSpdSlot(netz.hauptschalter.enabled, Hauptschalter);
    var p := SlotPlan(netz);
    assert p == pre + z + h;
    assert SpdVorsicherung !in p && Ueberspannungsschutz !in p;
    assert multiset(p)[SpdVorsicherung] == 0 && multiset(p)[Ueberspannungsschutz] == 0;
    forall i | 0 <= i < |p| ensures p[i] != SpdVorsicherung && p[i] != Ueberspannungsschutz {
      assert p[i] in p;
    }
  }

  /** SPD placement: the SPD appears once exactly when enabled; its pre-fuse
      appears exactly when both are enabled and is directly followed by the
      SPD; the SPD comes before the meter for `VorZaehler` and after it for
      `NachZaehler`. */
  lemma PlanSpd(netz: NetzKonfiguration)
    ensures var p := SlotPlan(netz); var spd := netz.ueberspannungsschutz;
      && multiset(p)[Ueberspannungsschutz] == (if spd.enabled then 1 else 0)
      && multiset(p)[SpdVorsicherung] == (if spd.enabled && spd.vorsicherung.enabled then 1 else 0)
      && (forall i :: 0 <= i < |p| && p[i] == SpdVorsicherung ==> i + 1 < |p| && p[i + 1] == Ueberspannungsschutz)
      && (forall i, j :: 0 <= i < |p| && 0 <= j < |p| && p[i] == Ueberspannungsschutz && p[j] == Zaehler ==>
            (i < j <==> spd.position == VorZaehler))
  {
    var spd := netz.ueberspannungsschutz;
    if !spd.enabled {
      PlanSpdOff(netz);
    } else if spd.position == VorZaehler {
      PlanSpdVor(netz);
    } else {
      PlanSpdNach(netz);
    }
  }

  /** The SPD properties, stated on the chain itself. */
  lemma ChainSpd(netz: NetzKonfiguration, find: DeviceCatalog, labels: NetzformLabels)
    ensures var r := UpstreamChain(netz, find, labels); var spd := netz.ueberspannungsschutz;
      && multiset(Slots(r))[Ueberspannungsschutz] == (if spd.enabled then 1 else 0)
      && multiset(Slots(r))[SpdVorsicherung] == (if spd.enabled && spd.vorsicherung.enabled then 1 else 0)
      && (forall i :: 0 <= i < |r| && r[i].slot == SpdVorsicherung ==> i + 1 < |r| && r[i + 1].slot == Ueberspannungsschutz)
      && (forall i, j :: 0 <= i < |r| && 0 <= j < |r| && r[i].slot == Ueberspannungsschutz && r[j].slot == Zaehler ==>
            (i < j <==> spd.position == VorZaehler))
  {
    ChainSlots(netz, find, labels);
    PlanSpd(netz);
    SlotsIndex(UpstreamChain(netz, find, labels));
  }

  // ---------------------------------------------------------------------------
  // Per-entry contents and catalog-miss fallbacks.
  // ---------------------------------------------------------------------------

  /** A catalog entry: the device found for `id`, with its label and width
      when found and the fallbacks otherwise. */
  ghost predicate FromCatalog(d: UpstreamDevice, id: string, find: DeviceCatalog, fallbackLabel: string, fallbackWidth: int)
  {
    && d.device == find(id)
    && (d.device.None? ==> d.labelText == fallbackLabel && d.teWidth == fallbackWidth)
    && (d.device.Some? ==> d.labelText == d.device.value.labelText && d.teWidth == d.device.value.teWidth)
  }

  /** What each kind of entry carries, given its configuration. */
  ghost predicate EntryFacts(d: UpstreamDevice, netz: NetzKonfiguration, find: DeviceCatalog)
  {
    var spd := netz.ueberspannungsschutz;
    match d.slot
    case Einspeisung => d.device.None? && d.teWidth == 0
    case Zaehlervorsicherung =>
      FromCatalog(d, netz.zaehlervorsicherung.deviceId, find, "SLS", 3)
      && d.sublabelText == IntToString(netz.zaehlervorsicherung.ampere) + "A"
    case Zaehler => FromCatalog(d, netz.zaehler.deviceId, find, "Zähler", 4) && d.sublabelText == ""
    case Hauptschalter =>
      FromCatalog(d, netz.hauptschalter.deviceId, find, "Hauptschalter", 3)
      && d.sublabelText == IntToString(netz.hauptschalter.ampere) + "A"
    case Ueberspannungsschutz =>
      FromCatalog(d, spd.deviceId, find, "SPD", 4)
      && d.sublabelText == (if spd.position == VorZaehler then "vor Zähler" else "nach Zähler")
    case SpdVorsicherung =>
      d.device.None? && d.teWidth == 1 && d.labelText == "Vorsicherung SPD"
      && d.sublabelText == IntToString(spd.vorsicherung.ampere) + "A"
  }

  ghost predicate AllEntryFacts(ds: seq<UpstreamDevice>, netz: NetzKonfiguration, find: DeviceCatalog)
  {
    forall i :: 0 <= i < |ds| ==> EntryFacts(ds[i], netz, find)
  }

  lemma AllEntryFactsAppend(a: seq<UpstreamDevice>, b: seq<UpstreamDevice>, netz: NetzKonfiguration, find: DeviceCatalog)
    requires AllEntryFacts(a, netz, find) && AllEntryFacts(b, netz, find)
    ensures AllEntryFacts(a + b, netz, find)
  {
    forall i | 0 <= i < |a + b| ensures EntryFacts((a + b)[i], netz, find) {
      if i >= |a| { assert (a + b)[i] == b[i - |a|]; }
    }
  }

  lemma SpdStageFacts(netz: NetzKonfiguration, at: SpdPosition, find: DeviceCatalog)
    ensures AllEntryFacts(SpdStage(netz.ueberspannungsschutz, at, find), netz, find)
  {
  }

  /** Every entry of the chain carries the device the catalog returns for its
      configured id, the catalog's label and width or, on a miss, the slot's
      fallback (SLS 3, meter 4, main switch 3, SPD 4), the rating as
      sublabel of pre-fuse and main switch, and the SPD's position as its
      sublabel; the SPD pre-fuse never has a device and is 1 wide. */
  lemma ChainEntries(netz: NetzKonfiguration, find: DeviceCatalog, labels: NetzformLabels)
    ensures AllEntryFacts(UpstreamChain(netz, find, labels), netz, find)
  {
    var s1 := [EinspeisungEntry(netz.einspeisung, labels)];
    var s2 := SlsStage(netz.zaehlervorsicherung, find);
    var s3 := SpdStage(netz.ueberspannungsschutz, VorZaehler, find);
    var s4 := ZaehlerStage(netz.zaehler, find);
    var s5 := SpdStage(netz.ueberspannungsschutz, NachZaehler, find);
    var s6 := HauptschalterStage(netz.hauptschalter, find);
    assert AllEntryFacts(s1, netz, find);
    assert AllEntryFacts(s2, netz, find);
    SpdStageFacts(netz, VorZaehler, find);
    assert AllEntryFacts(s4, netz, find);
    SpdStageFacts(netz, NachZaehler, find);
    assert AllEntryFacts(s6, netz, find);
    AllEntryFactsAppend(s1, s2, netz, find);
    AllEntryFactsAppend(s1 + s2, s3, netz, find);
    AllEntryFactsAppend(s1 + s2 + s3, s4, netz, find);
    AllEntryFactsAppend(s1 + s2 + s3 + s4, s5, netz, find);
    AllEntryFactsAppend(s1 + s2 + s3 + s4 + s5, s6, netz, find);
  }

  /** With meter pre-fuse and SPD off and meter and main switch on, the
      chain is supply, meter, main switch. */
  lemma MeterAndMainSwitchOnly(netz: NetzKonfiguration, find: DeviceCatalog, labels: NetzformLabels)
    requires !netz.zaehlervorsicherung.enabled && netz.zaehler.enabled
    requires netz.hauptschalter.enabled && !netz.ueberspannungsschutz.enabled
    ensures Slots(UpstreamChain(netz, find, labels)) == [Einspeisung, Zaehler, Hauptschalter]
  {
    ChainSlots(netz, find, labels);
  }
}
