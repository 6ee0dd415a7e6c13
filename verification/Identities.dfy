// The cached device identities of pkg/manager/snapshot.go. An empty string or a nil pointer of the
// Go struct is None here.

module Identities {
  import opened Wrappers

  datatype Field = Imei | Iccid | Imsi | Firmware | Hardware | Manufacturer | Model | OperatingMode | SimInserted

  datatype Ids<+T> = Ids(
    imei: Option<T>,
    iccid: Option<T>,
    imsi: Option<T>,
    firmware: Option<T>,
    hardware: Option<T>,
    manufacturer: Option<T>,
    model: Option<T>,
    operatingMode: Option<T>,
    simInserted: Option<T>)

  function NoIds<T>(): Ids<T> {
    Ids(None, None, None, None, None, None, None, None, None)
  }

  function Get<T>(ids: Ids<T>, f: Field): Option<T> {
    match f
    case Imei => ids.imei
    case Iccid => ids.iccid
    case Imsi => ids.imsi
    case Firmware => ids.firmware
    case Hardware => ids.hardware
    case Manufacturer => ids.manufacturer
    case Model => ids.model
    case OperatingMode => ids.operatingMode
    case SimInserted => ids.simInserted
  }

  function Set<T>(ids: Ids<T>, f: Field, v: Option<T>): Ids<T> {
    match f
    case Imei => ids.(imei := v)
    case Iccid => ids.(iccid := v)
    case Imsi => ids.(imsi := v)
    case Firmware => ids.(firmware := v)
    case Hardware => ids.(hardware := v)
    case Manufacturer => ids.(manufacturer := v)
    case Model => ids.(model := v)
    case OperatingMode => ids.(operatingMode := v)
    case SimInserted => ids.(simInserted := v)
  }

  predicate OfTheCard(f: Field) {
    f == Iccid || f == Imsi || f == SimInserted
  }

  // The two readiness definitions.
  ghost predicate StaticReady<T(!new)>(ids: Ids<T>) {
    exists f :: !OfTheCard(f) && Get(ids, f).Some?
  }

  ghost predicate CardReady<T(!new)>(ids: Ids<T>) {
    exists f :: OfTheCard(f) && Get(ids, f).Some?
  }

  function Or<T>(newer: Option<T>, kept: Option<T>): Option<T> {
    if newer.Some? then newer else kept
  }

  function Overlay<T>(kept: Ids<T>, update: Ids<T>): Ids<T> {
    Ids(Or(update.imei, kept.imei), Or(update.iccid, kept.iccid), Or(update.imsi, kept.imsi),
        Or(update.firmware, kept.firmware), Or(update.hardware, kept.hardware),
        Or(update.manufacturer, kept.manufacturer), Or(update.model, kept.model),
        Or(update.operatingMode, kept.operatingMode), Or(update.simInserted, kept.simInserted))
  }

  lemma OverlayIsPerField<T>(kept: Ids<T>, update: Ids<T>, f: Field)
    ensures Get(Overlay(kept, update), f) == Or(Get(update, f), Get(kept, f))
  {
  }

  // The tests the source evaluates.
  lemma ReadinessTests<T(!new)>(ids: Ids<T>)
    ensures StaticReady(ids) <==>
              || ids.imei.Some? || ids.firmware.Some? || ids.hardware.Some? || ids.manufacturer.Some? || ids.model.Some?
              || ids.operatingMode.Some?
    ensures CardReady(ids) <==> ids.iccid.Some? || ids.imsi.Some? || ids.simInserted.Some?
  {
    assert Get(ids, Imei) == ids.imei && Get(ids, Firmware) == ids.firmware && Get(ids, Hardware) == ids.hardware;
    assert Get(ids, Manufacturer) == ids.manufacturer;
    assert Get(ids, Model) == ids.model && Get(ids, OperatingMode) == ids.operatingMode;
    assert Get(ids, Iccid) == ids.iccid && Get(ids, Imsi) == ids.imsi && Get(ids, SimInserted) == ids.simInserted;
  }

  function WithoutCard<T>(ids: Ids<T>): Ids<T> {
    ids.(iccid := None, imsi := None, simInserted := None)
  }

  // The assignments of updateIdentitiesLocked.
  method Updated<T>(kept: Ids<T>, update: Ids<T>) returns (ids: Ids<T>)
    ensures ids == Overlay(kept, update)
  {
    var Ids(imei, iccid, imsi, firmware, hardware, manufacturer, model, operatingMode, simInserted) := kept;
    if update.imei.Some? {
      imei := update.imei;
    }
    if update.iccid.Some? {
      iccid := update.iccid;
    }
    if update.imsi.Some? {
      imsi := update.imsi;
    }
    if update.firmware.Some? {
      firmware := update.firmware;
    }
    if update.hardware.Some? {
      hardware := update.hardware;
    }
    if update.manufacturer.Some? {
      manufacturer := update.manufacturer;
    }
    if update.model.Some? {
      model := update.model;
    }
    if update.operatingMode.Some? {
      operatingMode := update.operatingMode;
    }
    if update.simInserted.Some? {
      simInserted := update.simInserted;
    }
    ids := Ids(imei, iccid, imsi, firmware, hardware, manufacturer, model, operatingMode, simInserted);
  }

  class DeviceSnapshot<T(!new)> {
    var ids: Ids<T>
    var staticReady: bool
    var simReady: bool
    var generation: nat

    // Both flags mean what they say.
    ghost predicate Valid()
      reads this
    {
      (staticReady <==> StaticReady(ids)) && (simReady <==> CardReady(ids))
    }

    constructor ()
      ensures Valid() && ids == NoIds() && generation == 0
    {
      ids, staticReady, simReady, generation := NoIds(), false, false, 0;
    }

    method UpdateIdentities(update: Ids<T>)
      requires Valid()
      modifies this`ids, this`staticReady, this`simReady
      ensures Valid()
      ensures forall f :: Get(ids, f) == if Get(update, f).Some? then Get(update, f) else Get(old(ids), f)
      ensures ids == Overlay(old(ids), update)
    {
      hide StaticReady, CardReady, Get, Overlay;
      ids := Updated(ids, update);
      staticReady := ids.imei.Some? || ids.firmware.Some? || ids.hardware.Some? || ids.manufacturer.Some?
                     || ids.model.Some? || ids.operatingMode.Some?;
      simReady := ids.iccid.Some? || ids.imsi.Some? || ids.simInserted.Some?;
      ReadinessTests(ids);
      forall f
        ensures Get(ids, f) == Or(Get(update, f), Get(old(ids), f))
      {
        OverlayIsPerField(old(ids), update, f);
      }
    }

    method UpdateIdentitiesIfGeneration(update: Ids<T>, gen: nat) returns (written: bool)
      requires Valid()
      modifies this`ids, this`staticReady, this`simReady
      ensures Valid()
      ensures written <==> gen == generation
      ensures ids == if written then Overlay(old(ids), update) else old(ids)
    {
      if gen != generation {
        return false;
      }
      UpdateIdentities(update);
      written := true;
    }

    method ResetIdentities(clearAll: bool)
      requires Valid()
      modifies this
      ensures Valid()
      ensures generation == old(generation) + 1
      ensures forall f :: Get(ids, f) == if clearAll || OfTheCard(f) then None else Get(old(ids), f)
      ensures ids == if clearAll then NoIds() else WithoutCard(old(ids))
    {
      generation := generation + 1;
      if clearAll {
        ids := NoIds();
        staticReady := false;
        simReady := false;
      } else {
        StaticPartSurvives(ids);
        ids := WithoutCard(ids);
        simReady := false;
      }
    }

    // The identity part of Reset.
    method Reset()
      requires Valid()
      modifies this
      ensures Valid()
      ensures generation == old(generation) + 1 && ids == WithoutCard(old(ids))
    {
      StaticPartSurvives(ids);
      ids := WithoutCard(ids);
      simReady := false;
      generation := generation + 1;
    }
  }

  lemma StaticPartSurvives<T(!new)>(ids: Ids<T>)
    ensures StaticReady(WithoutCard(ids)) <==> StaticReady(ids)
    ensures !CardReady(WithoutCard(ids))
  {
    forall f | !OfTheCard(f)
      ensures Get(WithoutCard(ids), f) == Get(ids, f)
    {
    }
  }
}
