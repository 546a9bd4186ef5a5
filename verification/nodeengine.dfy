/** The engine object: fields updated in place, every method against its transition. */
module NodeEngine {
  import opened Bytes
  import opened Frame
  import opened Security
  import opened Persist
  import opened Clock
  import opened Replay
  import opened Engine
  import opened Records
  import Ceremony
  import Relay
  import Utf8
  import NodeSteps
  import NodeFrames

  class SecureNode {
    const cr: Crypto
    const radioAvailable: bool
    const contacts: array<Contact>
    const relay: Relay.RelayCache<bytes>
    const scratch: array<byte>
    ghost var staging: View

    var provisioned: bool
    var boardLabel: byte
    var uid: bytes8
    var uidSet: bool
    var unixSeconds: u64
    var timeValid: bool
    var persistedTxEpoch: u32
    var radioOn: bool
    var armedNextBoot: bool
    var signPriv: bytes32
    var signSet: bool
    var pendingSend: Option<PendingSend>
    var pendingText: bytes
    var fault: bool
    var staged: Option<StagedOp>
    var dirty: bool
    var monoS: u64
    var utcMonoS: u64
    var authFailures: u32
    var replayDrops: u32
    var attempt: Option<PairAttempt>

    predicate Shaped()
    {
      contacts.Length == MAX_CONTACTS && relay.entries.Length == Relay.SIZE && scratch.Length == LEN
    }

    /** Bytes waiting for a commit are the encoding of the staged snapshot. */
    ghost predicate Valid()
      reads this, scratch
    {
      Shaped() && (dirty ==> scratch[..] == Encode(staging))
    }

    ghost function Value(): State
      requires Shaped()
      reads this, contacts, relay.entries
    {
      State(provisioned, boardLabel, uid, uidSet, unixSeconds, timeValid, persistedTxEpoch, radioOn, armedNextBoot,
            radioAvailable, signPriv, signSet, contacts[..], pendingSend, pendingText, relay.entries[..], fault,
            staged, staging, dirty, monoS, utcMonoS, authFailures, replayDrops, attempt)
    }

    constructor (cr: Crypto, radioAvailable: bool)
      ensures Valid() && this.cr == cr
      ensures Value() == Fresh(radioAvailable)
      ensures fresh(contacts) && fresh(scratch) && fresh(relay) && fresh(relay.entries)
    {
      this.cr, this.radioAvailable := cr, radioAvailable;
      contacts := new Contact[MAX_CONTACTS](i => NO_CONTACT);
      relay := new Relay.RelayCache<bytes>([]);
      scratch := new byte[LEN](i => 0);
      staging := NO_VIEW;
      provisioned, boardLabel, uid, uidSet := false, 0, Zeros(8), false;
      unixSeconds, timeValid, persistedTxEpoch := 0, false, 0;
      radioOn, armedNextBoot, signPriv, signSet := false, false, Zeros(32), false;
      pendingSend, pendingText, fault, staged, dirty := None, [], false, None, false;
      monoS, utcMonoS, authFailures, replayDrops, attempt := 0, 0, 0, 0, None;
      new;
      assert contacts[..] == Fresh(radioAvailable).contacts;
      assert relay.entries[..] == Fresh(radioAvailable).relay;
    }

    // ---- staging, committing, restoring ----

    method PersistView() returns (v: View)
      requires Shaped()
      ensures v == ViewOf(Value())
    {
      var cs: Contacts := contacts[..];
      if staged.Some? && staged.value.TxReserve? && staged.value.slot < MAX_CONTACTS {
        var slot := staged.value.slot;
        cs := cs[slot := cs[slot].(txReserved := staged.value.newReserved)];
      }
      v := View(provisioned, armedNextBoot, boardLabel, uid, uidSet, unixSeconds, persistedTxEpoch, signPriv, signSet, cs);
    }

    method StagePersist(op: StagedOp)
      requires Valid()
      modifies this, scratch
      ensures Valid() && Value() == Stage(old(Value()), op)
    {
      hide Encode, ViewOf, Value;
      var view := NoteStaged(op);
      WriteSnapshot(view);
    }

    method NoteStaged(op: StagedOp) returns (view: View)
      requires Shaped()
      modifies this`staged
      ensures Value() == old(Value()).(staged := Some(op)) && view == ViewOf(Value())
    {
      hide ViewOf;
      staged := Some(op);
      view := PersistView();
    }

    method WriteSnapshot(view: View)
      requires Shaped()
      modifies this`staging, this`dirty, scratch
      ensures Valid() && Value() == old(Value()).(scratch := view, dirty := true)
    {
      hide Encode;
      var n := EncodeInto(view, scratch);
      assert scratch[..] == scratch[..n];
      staging, dirty := view, true;
    }

    method PendingBytes() returns (b: Option<bytes>)
      requires Valid()
      ensures b == match PendingPersist(Value()) case None => None case Some(v) => Some(Encode(v))
    {
      if dirty { return Some(scratch[..]); } else { return None; }
    }

    method CommitOk()
      requires Valid()
      modifies this, contacts
      ensures Valid() && Value() == Engine.CommitOk(old(Value()))
    {
      hide Encode, Value, Engine.CommitOk;
      Reading();
      CommitShape(Value());
      var op := staged;
      ClearStaged();
      if op.Some? && op.value.TxReserve? {
        if op.value.slot < MAX_CONTACTS {
          Reading();
          PutContact(op.value.slot, contacts[op.value.slot].(txReserved := op.value.newReserved));
        }
      } else if op.Some? && op.value.PairActivate? {
        PutAttempt(None);
      }
    }

    method ClearStaged()
      requires Shaped()
      modifies this`staged, this`dirty
      ensures Valid() && Value() == old(Value()).(staged := None, dirty := false)
    {
      staged, dirty := None, false;
    }

    method DiscardStaged()
      requires Shaped()
      modifies this`staged, this`dirty, this`pendingSend
      ensures Valid() && Value() == Engine.DiscardStaged(old(Value()))
    {
      hide Encode;
      staged, dirty, pendingSend := None, false, None;
    }

    method MarkFault()
      requires Valid()
      modifies this
      ensures Valid() && Value() == Engine.MarkFault(old(Value()))
    {
      hide Encode;
      fault := true;
    }

    method RestoreSlots(stored: Contacts)
      requires Shaped()
      modifies contacts
      ensures Value() == old(Value()).(contacts := RestoreContacts(stored))
    {
      hide RestoreWindows;
      for i := 0 to MAX_CONTACTS
        invariant forall j :: 0 <= j < i ==> contacts[j] == RestoreContact(stored[j])
      {
        var c := stored[i];
        contacts[i] := NO_CONTACT;
        if c.present {
          var skipTo := Max(c.txReserved, c.txNext);
          contacts[i] := c.(txNext := skipTo, txReserved := Max(c.txReserved, skipTo),
                            winData := RestoreWindows(c.winData), winAck := RestoreWindows(c.winAck));
        }
      }
    }

    method PutLabel(p: bool, l: byte)
      requires Shaped()
      modifies this`provisioned, this`boardLabel
      ensures Value() == old(Value()).(provisioned := p, boardLabel := l)
    {
      provisioned, boardLabel := p, l;
    }

    method PutUid(id: bytes8, isSet: bool)
      requires Shaped()
      modifies this`uid, this`uidSet
      ensures Value() == old(Value()).(uid := id, uidSet := isSet)
    {
      uid, uidSet := id, isSet;
    }

    method PutKey(key: bytes32, isSet: bool)
      requires Shaped()
      modifies this`signPriv, this`signSet
      ensures Value() == old(Value()).(signPriv := key, signSet := isSet)
    {
      signPriv, signSet := key, isSet;
    }

    method PutClock(seconds: u64, valid: bool)
      requires Shaped()
      modifies this`unixSeconds, this`timeValid
      ensures Value() == old(Value()).(unixSeconds := seconds, timeValid := valid)
    {
      unixSeconds, timeValid := seconds, valid;
    }

    method PutTxEpoch(e: u32)
      requires Shaped()
      modifies this`persistedTxEpoch
      ensures Value() == old(Value()).(persistedTxEpoch := e)
    {
      persistedTxEpoch := e;
    }

    method PutRadio(on: bool, armed: bool)
      requires Shaped()
      modifies this`radioOn, this`armedNextBoot
      ensures Value() == old(Value()).(radioOn := on, armedNextBoot := armed)
    {
      radioOn, armedNextBoot := on, armed;
    }

    method PutPending(ps: Option<PendingSend>)
      requires Shaped()
      modifies this`pendingSend
      ensures Value() == old(Value()).(pendingSend := ps)
    {
      pendingSend := ps;
    }

    method PutText(text: bytes)
      requires Shaped()
      modifies this`pendingText
      ensures Value() == old(Value()).(pendingText := text)
    {
      pendingText := text;
    }

    method PutMono(now: u64, utc: u64)
      requires Shaped()
      modifies this`monoS, this`utcMonoS
      ensures Value() == old(Value()).(monoS := now, utcMonoS := utc)
    {
      monoS, utcMonoS := now, utc;
    }

    method PutAttempt(a: Option<PairAttempt>)
      requires Shaped()
      modifies this`attempt
      ensures Value() == old(Value()).(attempt := a)
    {
      attempt := a;
    }

    method PutContact(slot: nat, c: Contact)
      requires Shaped() && slot < MAX_CONTACTS
      modifies contacts
      ensures Value() == old(Value()).(contacts := old(Value()).contacts[slot := c])
    {
      contacts[slot] := c;
    }

    /** What the fields say about the abstract state. */
    lemma Reading()
      requires Shaped()
      ensures var s := Value();
              && s.fault == fault && s.provisioned == provisioned && s.boardLabel == boardLabel && s.uid == uid
              && s.uidSet == uidSet && s.unixSeconds == unixSeconds && s.timeValid == timeValid
              && s.persistedTxEpoch == persistedTxEpoch && s.radioOn == radioOn && s.armedNextBoot == armedNextBoot
              && s.radioAvailable == radioAvailable && s.contacts == contacts[..] && s.pendingSend == pendingSend
              && s.pendingText == pendingText && s.staged == staged && s.dirty == dirty && s.monoS == monoS
              && s.utcMonoS == utcMonoS && s.authFailures == authFailures && s.replayDrops == replayDrops
              && s.relay == relay.entries[..] && s.signPriv == signPriv && s.signSet == signSet && s.attempt == attempt
    {}

    method Restore(b: bytes) returns (r: Option<EngineError>)
      requires Valid()
      modifies this, contacts
      ensures Valid() && Step(Value(), r) == RestoreBytes(old(Value()), b)
    {
      hide Persist.Decode, RestoreContacts, Encode, Value;
      var d := DecodeView(b);
      if d.Err? { return Some(StorageFault); }
      var v := d.value;
      PutLabel(v.provisioned, v.boardLabel);
      PutUid(v.uid, v.uidSet);
      PutClock(v.unixSeconds, false);
      PutTxEpoch(v.persistedTxEpoch);
      PutRadio(false, v.armedNextBoot);
      PutKey(v.signPriv, v.signSet);
      RestoreSlots(v.contacts);
      PutAttempt(None);
      DiscardStaged();
      return None;
    }

    // ---- identity, provisioning, radio flags ----

    method CheckUsable() returns (e: Option<EngineError>)
      requires Shaped()
      ensures e == Engine.CheckUsable(Value())
    {
      if fault { return Some(StorageFault); }
      if !provisioned { return Some(Unprovisioned); }
      return None;
    }

    method SetIdentity(id: bytes8)
      requires Valid()
      modifies this, scratch
      ensures Valid() && Value() == Engine.SetIdentity(old(Value()), id)
    {
      hide Encode, Stage, Value;
      Reading();
      if uidSet && uid == id { return; }
      PutUid(id, true);
      StagePersist(Plain);
    }

    method Provision(lab: byte, key: bytes32) returns (r: Option<EngineError>)
      requires Valid()
      modifies this, scratch
      ensures Valid() && Step(Value(), r) == DoProvision(old(Value()), lab, key)
    {
      hide Encode, Stage, Value;
      Reading();
      if fault { return Some(StorageFault); }
      if provisioned { return Some(Busy); }
      if lab == 0 || lab > 3 { return Some(BadRequest); }
      PutKey(key, true);
      PutLabel(true, lab);
      StagePersist(StagedOp.Provision);
      return None;
    }

    method SetRadio(enabled: bool) returns (r: Option<EngineError>)
      requires Valid()
      modifies this, scratch
      ensures Valid() && Step(Value(), r) == Engine.SetRadio(old(Value()), enabled)
    {
      hide Encode, Stage, Value;
      Reading();
      if fault { return Some(StorageFault); }
      if enabled && !radioAvailable { return Some(RadioUnavailable); }
      if enabled {
        PutRadio(true, armedNextBoot);
        RadioKept(old(Value()));
      } else {
        PutRadio(false, false);
        PutPending(None);
      }
      StagePersist(Plain);
      return None;
    }

    method ArmNextBoot() returns (r: Option<EngineError>)
      requires Valid()
      modifies this, scratch
      ensures Valid() && Step(Value(), r) == Engine.ArmNextBoot(old(Value()))
    {
      hide Encode, Stage, Value;
      Reading();
      r := CheckUsable();
      if r.Some? { return; }
      if !radioAvailable { return Some(RadioUnavailable); }
      PutRadio(radioOn, true);
      StagePersist(Plain);
    }

    method ConsumeBootArm() returns (r: Result<bool, EngineError>)
      requires Valid()
      modifies this, scratch
      ensures Valid() && Step(Value(), r) == Engine.ConsumeBootArm(old(Value()))
    {
      hide Encode, Stage, Value;
      Reading();
      if fault { return Err(StorageFault); }
      var armed := armedNextBoot;
      if armed {
        PutRadio(radioOn, false);
        StagePersist(Plain);
      }
      return Ok(armed && radioAvailable);
    }

    // ---- trusted time ----

    method HighestHour() returns (floor: u32)
      requires Shaped()
      ensures floor == Floor(Value().contacts, Value().persistedTxEpoch, MAX_CONTACTS)
    {
      hide Value;
      Reading();
      floor := persistedTxEpoch;
      for i := 0 to MAX_CONTACTS
        invariant floor == Floor(contacts[..], persistedTxEpoch, i)
      {
        if contacts[i].present { floor := Max(floor, contacts[i].anchor); }
      }
    }

    /** New window arrays for the three hours around `epoch`; a window moves with its hour. */
    method MoveWindows(c: Contact, epoch: u32) returns (d: Contact)
      requires c.present
      ensures d == AdvanceContact(c, epoch)
    {
      var nd, na, ne := c.winData, c.winAck, c.winEpochs;
      var hours := Slots(epoch);
      for i := 0 to 3
        invariant forall j :: 0 <= j < i ==> ne[j] == hours[j]
        invariant forall j :: 0 <= j < i ==> nd[j] == Moved(c.winData, c.winEpochs, hours[j])
        invariant forall j :: 0 <= j < i ==> na[j] == Moved(c.winAck, c.winEpochs, hours[j])
      {
        var oldIndex := Position(c.winEpochs, hours[i]);
        if oldIndex.Some? {
          nd, na := nd[i := c.winData[oldIndex.value]], na[i := c.winAck[oldIndex.value]];
        } else {
          nd, na := nd[i := EMPTY], na[i := EMPTY];
        }
        ne := ne[i := hours[i]];
      }
      assert ne == hours && nd == MoveAll(c.winData, c.winEpochs, hours) && na == MoveAll(c.winAck, c.winEpochs, hours);
      d := c.(anchor := epoch, winEpochs := ne, winData := nd, winAck := na);
    }

    /** Every present slot moves together; no anchor lies above `epoch`, so none of them can refuse. */
    method AdvanceAll(epoch: u32)
      requires Shaped() && forall i :: 0 <= i < MAX_CONTACTS && contacts[i].present ==> contacts[i].anchor <= epoch
      modifies contacts
      ensures Value() == old(Value()).(contacts := AdvanceContacts(old(Value()).contacts, epoch))
    {
      hide AdvanceContact;
      for i := 0 to MAX_CONTACTS
        invariant forall j :: 0 <= j < i ==> contacts[j] == AdvanceContact(old(contacts[j]), epoch)
        invariant forall j :: i <= j < MAX_CONTACTS ==> contacts[j] == old(contacts[j])
      {
        if contacts[i].present {
          assert contacts[i].anchor <= epoch;
          contacts[i] := MoveWindows(contacts[i], epoch);
        } else {
          AbsentStays(contacts[i], epoch);
        }
      }
    }

    method SetTimeConfirmed(seconds: u64, confirmed: bool) returns (r: Result<u32, EngineError>)
      requires Valid()
      modifies this, contacts, scratch
      ensures Valid() && Step(Value(), r) == Engine.SetTime(old(Value()), seconds, confirmed)
    {
      hide Encode, Stage, Value, Floor, AdvanceContacts, AdvanceContact;
      Reading();
      if fault { return Err(StorageFault); }
      var e := EpochOfUnix(seconds);
      if e.None? { return Err(BadRequest); }
      var epoch := e.value;
      var floor := HighestHour();
      if epoch < floor { return Err(TimeRollback); }
      var current := CurrentHour();
      if !confirmed && timeValid && epoch > Succ(current) { return Err(TimeJumpNeedsConfirm); }
      NodeSteps.FloorBounds(contacts[..], persistedTxEpoch, MAX_CONTACTS);
      EnterHour(seconds, epoch);
      return Ok(epoch);
    }

    method EnterHour(seconds: u64, epoch: u32)
      requires Valid() && forall i :: 0 <= i < MAX_CONTACTS && contacts[i].present ==> contacts[i].anchor <= epoch
      modifies this, contacts, scratch
      ensures Valid()
      ensures var s := old(Value());
              Value() == Stage(s.(contacts := AdvanceContacts(s.contacts, epoch), unixSeconds := seconds, timeValid := true,
                                  utcMonoS := s.monoS), Time(seconds))
    {
      hide Encode, Stage, Value, AdvanceContacts;
      AdvanceAll(epoch);
      PutClock(seconds, true);
      Reading();
      PutMono(monoS, monoS);
      StagePersist(Time(seconds));
    }

    method CurrentHour() returns (e: u32)
      requires Shaped()
      ensures e == EpochOf(Value())
    {
      if timeValid {
        var o := EpochOfUnix(unixSeconds);
        if o.Some? { return o.value; }
      }
      return 0;
    }

    method AdvanceTime(now: u64) returns (r: Option<EngineError>)
      requires Valid()
      modifies this, contacts, scratch
      ensures Valid() && Step(Value(), r) == Engine.AdvanceTime(old(Value()), now)
    {
      hide Encode, Engine.SetTime, Value;
      Reading();
      if fault { return Some(StorageFault); }
      PutMono(now, utcMonoS);
      Reading();
      if !timeValid { return None; }
      if now < utcMonoS {
        PutClock(unixSeconds, false);
        return Some(TimeRollback);
      }
      var next := unixSeconds + (now - utcMonoS);
      if next >= U64 || EpochOfUnix(next).None? {
        PutClock(unixSeconds, false);
        return Some(BadRequest);
      }
      var current := CurrentHour();
      if EpochOfUnix(next) != Some(current) {
        var t := SetTimeConfirmed(next, false);
        return if t.Err? then Some(t.error) else None;
      }
      PutClock(next, timeValid);
      PutMono(now, now);
      return None;
    }

    // ---- contacts ----

    method FindSlot(contactId: byte) returns (r: Result<nat, EngineError>)
      requires Shaped()
      ensures r == SlotOf(Value(), contactId)
    {
      if contactId < 1 || contactId > MAX_CONTACTS { return Err(BadRequest); }
      if !contacts[contactId - 1].present { return Err(BadRequest); }
      return Ok(contactId - 1);
    }

    method ActivateContact(slot: nat, edPeer: bytes32, peerId: bytes8, root: bytes32, role: byte) returns (r: Option<EngineError>)
      requires Valid()
      modifies this, contacts, scratch
      ensures Valid() && Step(Value(), r) == Activate(old(Value()), slot, edPeer, peerId, root, role)
    {
      hide Encode, Stage, Value;
      if slot >= MAX_CONTACTS { return Some(NoSlot); }
      var epoch := CurrentHour();
      PutContact(slot, NewContact(edPeer, peerId, root, role, epoch));
      StagePersist(PairActivate(slot));
      return None;
    }

    // ---- pairing ----

    method PairGuard() returns (e: Option<EngineError>)
      requires Shaped()
      ensures e == Ceremony.Guard(Value())
    {
      e := CheckUsable();
      if e.Some? { return; }
      if radioOn { return Some(RadioMustBeOff); }
      return None;
    }

    method FindFree() returns (slot: Option<nat>)
      requires Shaped()
      ensures slot == Ceremony.FreeSlot(Value().contacts, 0)
    {
      hide Value;
      Reading();
      for i := 0 to MAX_CONTACTS
        invariant Ceremony.FreeSlot(contacts[..], 0) == Ceremony.FreeSlot(contacts[..], i)
      {
        if !contacts[i].present { return Some(i); }
      }
      return None;
    }

    method KnowsPeer(edPeer: bytes32) returns (known: bool)
      requires Shaped()
      ensures known == Ceremony.KnownPeer(Value().contacts, edPeer)
    {
      hide Value;
      Reading();
      for i := 0 to MAX_CONTACTS
        invariant forall j :: 0 <= j < i ==> !contacts[j].present || contacts[j].edPeer != edPeer
      {
        if contacts[i].present && contacts[i].edPeer == edPeer {
          assert contacts[..][i].present && contacts[..][i].edPeer == edPeer;
          return true;
        }
      }
      return false;
    }

    method PairOffer(ephPriv: bytes32, ephPub: bytes32, challenge: bytes32) returns (r: Result<bytes, EngineError>)
      requires Valid()
      modifies this`attempt
      ensures Valid() && Step(Value(), r) == Ceremony.PairOffer(cr, old(Value()), ephPriv, ephPub, challenge)
    {
      hide Value, Encode, Ceremony.Guard, Ceremony.FreeSlot, EncodePayload, Zeros;
      Reading();
      var e := PairGuard();
      if e.Some? { return Err(e.value); }
      if attempt.Some? && !Ceremony.Expired(attempt.value.start, monoS) { return Ok([RECORD_OFFER] + attempt.value.ownOffer); }
      if !signSet { return Err(Unprovisioned); }
      if ephPub == Zeros(32) { return Err(BadRequest); }
      var slot := FindFree();
      if slot.None? { return Err(NoSlot); }
      var offer := EncodePayload(Records.Offer.Offer(cr.edPub(signPriv), ephPub, challenge));
      PutAttempt(Some(PairAttempt(offer, ephPriv, None, None, None, ROLE_L, None, None, None, monoS, slot.value, false)));
      return Ok([RECORD_OFFER] + offer);
    }

    /** The peer's offer fixes transcript, role and slot. */
    method ImportOffer(record: bytes, replace: bool) returns (r: Result<Option<nat>, EngineError>)
      requires Valid() && attempt.Some?
      modifies this`attempt
      ensures Valid() && old(Value()).attempt.Some?
      ensures Step(Value(), r) == Ceremony.Settle(old(Value()), Ceremony.WithOffer(cr, old(Value()).contacts, old(Value()).attempt.value, record, replace))
    {
      hide Value, Encode, Ceremony.FreeSlot, Ceremony.KnownPeer, EncodePayload, DecodePayload, DecodeOffer, Ordered, RoleFor;
      Reading();
      var a := attempt.value;
      var offer := DecodeOffer(record);
      if offer.Err? { return Err(BadRequest); }
      var own := DecodePayload(a.ownOffer);
      if own.Err? { return Err(StorageFault); }
      if own.value.edPub == offer.value.edPub { return Err(BadRequest); }
      var known := KnowsPeer(offer.value.edPub);
      if known { return Err(BadRequest); }
      var slot := a.slot;
      if !replace {
        var free := FindFree();
        if free.None? { return Err(NoSlot); }
        slot := free.value;
      }
      var peer := EncodePayload(offer.value);
      var ends := Ordered(a.ownOffer, peer);
      PutAttempt(Some(a.(peerOffer := Some(peer), transcript := Some(cr.transcript(ends.0, ends.1)),
                         ownRole := RoleFor(own.value.edPub, offer.value.edPub), slot := slot, replace := replace)));
      return Ok(None);
    }

    method PairReady() returns (e: Option<EngineError>)
      requires Shaped()
      ensures e == Ceremony.Ready(Value())
    {
      hide Value, Ceremony.Guard;
      Reading();
      e := PairGuard();
      if e.Some? { return; }
      if attempt.None? { return Some(PairingAbsent); }
      if Ceremony.Expired(attempt.value.start, monoS) { return Some(PairingExpired); }
      if attempt.value.transcript.None? { return Some(BadRequest); }
      return None;
    }

    method MakeProof(a: PairAttempt, t: bytes32) returns (r: Result<bytes, EngineError>)
      requires Shaped()
      ensures r == Ceremony.MadeProof(cr, Value(), a, t)
    {
      hide Value, Ceremony.PairRoot, EncodeProof, Ceremony.SetupKey, Ceremony.ProofAad, Ceremony.ProofMessage, Zeros;
      Reading();
      if a.ownProof.Some? { return Ok(a.ownProof.value); }
      var root := Ceremony.PairRoot(cr, a, t);
      if root.Err? { return Err(root.error); }
      if !uidSet { return Err(Unprovisioned); }
      var ct := cr.seal(Ceremony.SetupKey(cr, root.value, a.ownRole), Zeros(12), Ceremony.ProofAad(t, a.ownRole), uid);
      if |ct| != 24 { return Err(StorageFault); }
      var rec := EncodeProof(Proof(t, a.ownRole, ct, cr.sign(signPriv, Ceremony.ProofMessage(t, a.ownRole, ct))));
      return if rec.Ok? then Ok(rec.value) else Err(BadRequest);
    }

    method PairProof() returns (r: Result<bytes, EngineError>)
      requires Valid()
      modifies this`attempt
      ensures Valid() && Step(Value(), r) == Ceremony.PairProof(cr, old(Value()))
    {
      hide Value, Encode, Ceremony.Ready, Ceremony.MadeProof;
      Reading();
      var e := PairReady();
      if e.Some? { return Err(e.value); }
      ReadyMeans(Value());
      r := MakeProof(attempt.value, attempt.value.transcript.value);
      if r.Ok? { PutAttempt(Some(attempt.value.(ownProof := Some(r.value)))); }
    }

    /** The peer's proof is checked against its offer and opened under the setup key of the other end. */
    method ImportProof(record: bytes) returns (r: Result<Option<nat>, EngineError>)
      requires Valid() && attempt.Some?
      modifies this`attempt
      ensures Valid() && old(Value()).attempt.Some?
      ensures Step(Value(), r) == Ceremony.Settle(old(Value()), Ceremony.WithProof(cr, old(Value()).attempt.value, record))
    {
      hide Value, Encode, DecodeProof, DecodePayload, Ceremony.PairRoot, Ceremony.SetupKey, Ceremony.ProofAad, Ceremony.ProofMessage, Zeros;
      Reading();
      var a := attempt.value;
      var proof := DecodeProof(record);
      if proof.Err? { return Err(BadRequest); }
      var p := proof.value;
      if a.transcript != Some(p.t) || p.role == a.ownRole { return Err(BadRequest); }
      if a.peerOffer.None? { return Err(BadRequest); }
      var peer := DecodePayload(a.peerOffer.value);
      if peer.Err? { return Err(BadRequest); }
      if !cr.verify(peer.value.edPub, Ceremony.ProofMessage(p.t, p.role, p.ct), p.sig) { return Err(BadRequest); }
      var root := Ceremony.PairRoot(cr, a, p.t);
      if root.Err? { return Err(root.error); }
      var pt := cr.open(Ceremony.SetupKey(cr, root.value, p.role), Zeros(12), Ceremony.ProofAad(p.t, p.role), p.ct);
      if pt.None? || |pt.value| != 8 { return Err(BadRequest); }
      PutAttempt(Some(a.(peerProof := Some(record), peerIdentity := Some(pt.value))));
      return Ok(None);
    }

    method MakeConfirm(a: PairAttempt, t: bytes32) returns (r: Result<bytes, EngineError>)
      ensures r == Ceremony.MadeConfirm(cr, a, t)
    {
      hide Ceremony.PairRoot, EncodeConfirmation, Ceremony.ConfirmMac, Ceremony.ProofsDigest;
      if a.peerProof.None? { return Err(BadRequest); }
      if a.ownConfirm.Some? { return Ok(a.ownConfirm.value); }
      if a.ownProof.None? { return Err(BadRequest); }
      var root := Ceremony.PairRoot(cr, a, t);
      if root.Err? { return Err(root.error); }
      var digest := Ceremony.ProofsDigest(cr, a.ownRole, a.ownProof.value, a.peerProof.value);
      var rec := EncodeConfirmation(Confirmation(t, a.ownRole, Ceremony.ConfirmMac(cr, root.value, t, a.ownRole, digest)));
      return if rec.Ok? then Ok(rec.value) else Err(BadRequest);
    }

    method PairConfirm() returns (r: Result<bytes, EngineError>)
      requires Valid()
      modifies this`attempt
      ensures Valid() && Step(Value(), r) == Ceremony.PairConfirm(cr, old(Value()))
    {
      hide Value, Encode, Ceremony.Ready, Ceremony.MadeConfirm;
      Reading();
      var e := PairReady();
      if e.Some? { return Err(e.value); }
      ReadyMeans(Value());
      r := MakeConfirm(attempt.value, attempt.value.transcript.value);
      if r.Ok? { PutAttempt(Some(attempt.value.(ownConfirm := Some(r.value)))); }
    }

    /** Every check of the confirmation, then the contact in its slot. */
    method ImportConfirm(record: bytes) returns (r: Result<nat, EngineError>)
      requires Valid() && attempt.Some?
      modifies this, contacts, scratch
      ensures Valid() && old(Value()).attempt.Some?
      ensures Step(Value(), r) == Ceremony.ImportConfirm(cr, old(Value()), record)
    {
      hide Value, Encode, Ceremony.PairRoot, DecodeConfirmation, DecodeProof, DecodePayload, Ceremony.ConfirmMac, Ceremony.ProofsDigest,
        Activate, Ceremony.SetupKey, Ceremony.ProofAad, Zeros;
      Reading();
      var a := attempt.value;
      var c := CheckConfirmation(a, record);
      if c.Err? { return Err(c.error); }
      ActivateRefused(Value(), a.slot, Ceremony.PeerEd(a), c.value.1, c.value.0, a.ownRole);
      var e := ActivateContact(a.slot, Ceremony.PeerEd(a), c.value.1, c.value.0, a.ownRole);
      if e.Some? { return Err(e.value); }
      return Ok(a.slot);
    }

    method CheckConfirmation(a: PairAttempt, record: bytes) returns (r: Result<(bytes32, bytes8), EngineError>)
      ensures r == Ceremony.Confirmed(cr, a, record)
    {
      hide Ceremony.PairRoot, DecodeConfirmation, DecodeProof, Ceremony.ConfirmMac, Ceremony.ProofsDigest, Ceremony.SetupKey,
        Ceremony.ProofAad, Zeros;
      var conf := DecodeConfirmation(record);
      if conf.Err? { return Err(BadRequest); }
      var c := conf.value;
      if a.transcript != Some(c.t) || c.role == a.ownRole { return Err(BadRequest); }
      if a.ownProof.None? || a.peerProof.None? { return Err(BadRequest); }
      var root := Ceremony.PairRoot(cr, a, c.t);
      if root.Err? { return Err(root.error); }
      var digest := Ceremony.ProofsDigest(cr, a.ownRole, a.ownProof.value, a.peerProof.value);
      if c.mac != Ceremony.ConfirmMac(cr, root.value, c.t, c.role, digest) { return Err(BadRequest); }
      if a.peerIdentity.None? { return Err(BadRequest); }
      var proof := DecodeProof(a.peerProof.value);
      if proof.Err? { return Err(BadRequest); }
      var pt := cr.open(Ceremony.SetupKey(cr, root.value, c.role), Zeros(12), Ceremony.ProofAad(c.t, c.role), proof.value.ct);
      if pt.None? || |pt.value| != 8 { return Err(BadRequest); }
      if pt.value != a.peerIdentity.value { return Err(BadRequest); }
      return Ok((root.value, pt.value));
    }

    method PairImport(record: bytes, replace: bool, sasMatch: bool) returns (r: Result<Option<nat>, EngineError>)
      requires Valid()
      modifies this, contacts, scratch
      ensures Valid() && Step(Value(), r) == Ceremony.Import(cr, old(Value()), record, replace, sasMatch)
    {
      hide Value, Encode, Ceremony.Guard, Ceremony.WithOffer, Ceremony.WithProof, Ceremony.ImportConfirm;
      Reading();
      var e := PairGuard();
      if e.Some? { return Err(e.value); }
      if attempt.None? { return Err(PairingAbsent); }
      if Ceremony.Expired(attempt.value.start, monoS) { return Err(PairingExpired); }
      if record == [] { return Err(BadRequest); }
      if record[0] == RECORD_CONFIRM && !sasMatch { return Err(SasMismatch); }
      if record[0] == RECORD_OFFER {
        r := ImportOffer(record, replace);
      } else if record[0] == RECORD_PROOF {
        r := ImportProof(record);
      } else if record[0] == RECORD_CONFIRM {
        var slot := ImportConfirm(record);
        return if slot.Ok? then Ok(Some(slot.value)) else Err(slot.error);
      } else {
        return Err(BadRequest);
      }
    }

    method DropPending(contactId: byte)
      requires Valid()
      modifies this`pendingSend
      ensures Valid() && Value() == DropPendingOf(old(Value()), contactId)
    {
      hide Encode;
      if pendingSend.Some? && pendingSend.value.contactId == contactId { pendingSend := None; }
    }

    method DeleteContact(contactId: byte) returns (r: Option<EngineError>)
      requires Valid()
      modifies this, contacts, scratch
      ensures Valid() && Step(Value(), r) == Engine.DeleteContact(old(Value()), contactId)
    {
      hide Encode, Stage, Value, DropPendingOf;
      r := CheckUsable();
      if r.Some? { return; }
      var slot := FindSlot(contactId);
      if slot.Err? { return Some(slot.error); }
      PutContact(slot.value, NO_CONTACT);
      DropPending(contactId);
      StagePersist(Plain);
    }

    method SetBlocked(contactId: byte, blocked: bool) returns (r: Result<BlockOutcome, EngineError>)
      requires Valid()
      modifies this, contacts, scratch
      ensures Valid() && Step(Value(), r) == Engine.SetBlocked(old(Value()), contactId, blocked)
    {
      hide Encode, Stage, Value;
      var e := CheckUsable();
      if e.Some? { return Err(e.value); }
      var slot := FindSlot(contactId);
      if slot.Err? { return Err(slot.error); }
      Reading();
      var ps := pendingSend;
      PutContact(slot.value, contacts[slot.value].(blocked := blocked));
      StagePersist(Plain);
      if !blocked { return Ok(Unblocked); }
      if ps.Some? && ps.value.contactId == contactId {
        PutPending(None);
        return Ok(CancelledSend(ps.value));
      }
      return Ok(Blocked);
    }

    // ---- sending ----

    method Reserve(slot: nat, otherwise: StagedOp) returns (ok: bool)
      requires Valid() && slot < MAX_CONTACTS
      modifies this, scratch
      ensures Valid() && ok == CanReserve(old(Value()).contacts[slot])
      ensures Value() == if ok then Stage(old(Value()), ReserveOp(old(Value()).contacts[slot], slot, otherwise)) else old(Value())
    {
      hide Encode, Stage, Value;
      Reading();
      var c := contacts[slot];
      if c.txNext >= c.txReserved {
        if c.txNext + SEQ_RESERVE_BLOCK >= U64 { return false; }
        StagePersist(TxReserve(slot, c.txNext + SEQ_RESERVE_BLOCK));
      } else {
        StagePersist(otherwise);
      }
      return true;
    }

    method SendBegin(contactId: byte, text: bytes, packetId: u32) returns (r: Result<PendingSend, EngineError>)
      requires Valid()
      modifies this, scratch
      ensures Valid() && Step(Value(), r) == Engine.SendBegin(old(Value()), contactId, text, packetId)
    {
      hide Encode, Stage, Value, Utf8.Valid, EpochOf, CanReserve, ReserveOp;
      Reading();
      var e := CheckUsable();
      if e.Some? { return Err(e.value); }
      if !timeValid { return Err(TimeUnset); }
      var slot := FindSlot(contactId);
      if slot.Err? { return Err(slot.error); }
      var c := contacts[slot.value];
      if c.blocked { return Err(ContactBlocked); }
      if pendingSend.Some? { return Err(Busy); }
      if !TextOk(text) { return Err(BadRequest); }
      var epoch := CurrentHour();
      if epoch < c.txEpochMax { return Err(TimeRollback); }
      var ok := Reserve(slot.value, Plain);
      if !ok { return Err(StorageFault); }
      PutText(text);
      var ps := PendingSend(contactId, epoch, c.txNext, packetId);
      PutPending(Some(ps));
      return Ok(ps);
    }

    /** Encrypts and encodes into a frame buffer. */
    method SealInto(c: Contact, h: Header, pt: bytes) returns (f: Option<bytes>)
      requires |pt| <= 1 + MAX_TEXT_LEN
      ensures f == SealFrame(cr, c, h, pt)
    {
      hide Encoded;
      var body := cr.seal(OutgoingKey(cr, c, h.epoch), Nonce(h.epoch, h.sequence), FrameAad(h, |pt| + TAG_LEN), pt);
      var out := new byte[MAX_FRAME_LEN](i => 0);
      var n := EncodeFrame(h, body, out);
      if n.Err? { return None; }
      return Some(out[..n.value]);
    }

    method ConsumeNumber(slot: nat, epoch: u32)
      requires Valid() && slot < MAX_CONTACTS && contacts[slot].txNext + 1 < U64
      modifies this`persistedTxEpoch, contacts
      ensures Valid()
      ensures old(Value()).contacts[slot].txNext + 1 < U64 && Value() == Consume(old(Value()), slot, epoch)
    {
      hide Encode, Value;
      Reading();
      var c := contacts[slot];
      PutContact(slot, c.(txNext := c.txNext + 1, txEpochMax := Max(c.txEpochMax, epoch)));
      Reading();
      PutTxEpoch(Max(persistedTxEpoch, epoch));
    }

    method SealPending(ps: PendingSend, slot: nat) returns (f: Option<bytes>)
      requires Shaped() && slot < MAX_CONTACTS
      ensures f == PendingFrame(cr, Value(), ps, slot)
    {
      hide SealFrame, Value;
      Reading();
      if |pendingText| > MAX_TEXT_LEN { return None; }
      var c := contacts[slot];
      f := SealInto(c, DataHeader(cr, uid, c, ps.epoch, ps.sequence, ps.packetId), DataBody(pendingText));
    }

    method SendEmit() returns (r: Result<Outgoing, EngineError>)
      requires Valid()
      modifies this, contacts, scratch
      ensures Valid() && Step(Value(), r) == Engine.SendEmit(cr, old(Value()))
    {
      hide Encode, Stage, Value, PendingFrame, Consume;
      Reading();
      if dirty { return Err(Busy); }
      if pendingSend.None? { return Err(BadRequest); }
      var ps := pendingSend.value;
      var slot := FindSlot(ps.contactId);
      if slot.Err? { return Err(slot.error); }
      var c := contacts[slot.value];
      if c.txNext != ps.sequence || ps.sequence >= c.txReserved { return Err(StorageFault); }
      if ps.epoch < c.txEpochMax { return Err(TimeRollback); }
      var f := SealPending(ps, slot.value);
      if f.None? { return Err(BadRequest); }
      ConsumeNumber(slot.value, ps.epoch);
      StagePersist(Plain);
      return Ok(Outgoing(f.value, Some(ps.contactId), false, false));
    }

    method SendRetryEcho() returns (r: Result<Outgoing, EngineError>)
      requires Valid()
      ensures r == Engine.SendRetryEcho(cr, Value())
    {
      hide Value, PendingFrame, Encode;
      Reading();
      if pendingSend.None? { return Err(BadRequest); }
      var ps := pendingSend.value;
      var slot := FindSlot(ps.contactId);
      if slot.Err? { return Err(slot.error); }
      var f := SealPending(ps, slot.value);
      if f.None? { return Err(BadRequest); }
      return Ok(Outgoing(f.value, Some(ps.contactId), false, true));
    }

    method SendComplete()
      requires Valid()
      modifies this
      ensures Valid() && Value() == Engine.SendComplete(old(Value()))
    {
      hide Encode;
      pendingSend := None;
    }

    // ---- receiving ----

    method BuildAck(slot: nat, h: Header, packetId: u32) returns (r: Option<Outgoing>)
      requires Valid() && slot < MAX_CONTACTS
      modifies this, contacts, scratch
      ensures Valid() && Step(Value(), r) == Engine.BuildAck(cr, old(Value()), slot, h, packetId)
    {
      hide Encode, Stage, Value, SealFrame, Consume, CanReserve, EpochOf, AckBody;
      Reading();
      if !timeValid { return None; }
      var epoch := CurrentHour();
      var c, own := contacts[slot], uid;
      var ok := Reserve(slot, RxAccept);
      if !ok { return None; }
      Reading();
      var f := SealInto(c, AckHeader(cr, own, c, epoch, c.txNext, packetId), AckBody(h.epoch, h.sequence, h.packetId));
      if f.None? { return None; }
      HasNumber(c);
      ConsumeNumber(slot, epoch);
      StagePersist(ReserveOp(c, slot, RxAccept));
      return Some(Outgoing(f.value, Some(slot + 1), true, false));
    }

    method CountReplay()
      requires Valid()
      modifies this`replayDrops
      ensures Valid() && Value() == old(Value()).(replayDrops := SatInc(old(Value()).replayDrops))
    {
      hide Encode;
      replayDrops := SatInc(replayDrops);
    }

    method CountFailure()
      requires Valid()
      modifies this`authFailures
      ensures Valid() && Value() == old(Value()).(authFailures := SatInc(old(Value()).authFailures))
    {
      hide Encode;
      authFailures := SatInc(authFailures);
    }

    method OnData(slot: nat, h: Header, pt: bytes, ackPacketId: u32) returns (r: Reaction)
      requires Valid() && slot < MAX_CONTACTS && h.epoch in contacts[slot].winEpochs && 1 <= |pt| <= 1 + MAX_TEXT_LEN
      modifies this, contacts, scratch
      ensures Valid() && h.epoch in old(Value()).contacts[slot].winEpochs
      ensures Step(Value(), r) == Engine.OnData(cr, old(Value()), slot, h, pt, ackPacketId)
    {
      hide Encode, Stage, Value, Replay.Offer, Engine.BuildAck, Position;
      Reading();
      var c := contacts[slot];
      var i := WindowIndex(c, h.epoch);
      var o := Replay.Offer(c.winData[i], h.sequence);
      match o.verdict
      case Accepted =>
        PutContact(slot, c.(winData := c.winData[i := o.window]));
        StagePersist(RxAccept);
        var ack := BuildAck(slot, h, ackPacketId);
        return Reaction(Deliver(slot + 1, |pt| - 1), ack, Some(Received(slot + 1, h.epoch, h.sequence, pt[1..])));
      case Duplicate =>
        CountReplay();
        StagePersist(Plain);
        var ack := BuildAck(slot, h, ackPacketId);
        return Reaction(ReAck(slot + 1), ack, None);
      case Stale =>
        CountReplay();
        return NOTHING;
    }

    method OnAck(slot: nat, h: Header, pt: bytes) returns (r: Reaction)
      requires Valid() && slot < MAX_CONTACTS && h.epoch in contacts[slot].winEpochs && |pt| == 17
      modifies this, contacts, scratch
      ensures Valid() && h.epoch in old(Value()).contacts[slot].winEpochs
      ensures Step(Value(), r) == Engine.OnAck(old(Value()), slot, h, pt)
    {
      hide Encode, Stage, Value, Replay.Offer, Position, FromBe32, FromBe64;
      Reading();
      var c := contacts[slot];
      var i := WindowIndex(c, h.epoch);
      var o := Replay.Offer(c.winAck[i], h.sequence);
      if o.verdict != Accepted {
        CountReplay();
        return NOTHING;
      }
      var waiting := pendingSend;
      PutContact(slot, c.(winAck := c.winAck[i := o.window]));
      StagePersist(RxAccept);
      var epoch, sequence, packetId := FromBe32(pt[1..5]), FromBe64(pt[5..13]), FromBe32(pt[13..17]);
      if waiting == Some(PendingSend(slot + 1, epoch, sequence, packetId)) {
        return Reaction(Ack(slot + 1), None, Some(SendAcked(slot + 1, epoch, sequence, packetId)));
      }
      return NOTHING;
    }

    /** Tries the slots in order; the first that authenticates ends the search. */
    method Authenticate(h: Header, body: bytes) returns (slot: Option<nat>, pt: bytes, failed: bool)
      requires Shaped() && |body| <= MAX_BODY_LEN
      ensures slot == FirstOpened(cr, Value(), h, body, 0)
      ensures slot.Some? ==> TrySlot(cr, uid, contacts[slot.value], h, body) == Opened(pt)
      ensures slot.None? ==> failed == AnyBadTag(cr, Value(), h, body, MAX_CONTACTS)
    {
      hide TrySlot, Value;
      Reading();
      failed := false;
      for i := 0 to MAX_CONTACTS
        invariant FirstOpened(cr, Value(), h, body, 0) == FirstOpened(cr, Value(), h, body, i)
        invariant failed == AnyBadTag(cr, Value(), h, body, i)
      {
        match TrySlot(cr, uid, contacts[i], h, body)
        case Skip =>
        case BadTag => failed := true;
        case Opened(plain) => return Some(i), plain, failed;
      }
      return None, [], failed;
    }

    method ObserveRelay(key: bytes, now: u64) returns (o: Relay.Observed)
      requires Valid()
      modifies relay.entries
      ensures Valid()
      ensures var n := Relay.Noted(old(Value()).relay, key, now);
              o == n.observed && Value() == old(Value()).(relay := n.entries)
    {
      hide Relay.Noted, Encode;
      o := relay.Observe(key, now);
    }

    method Transit(f: bytes, h: Header, now: u64) returns (r: Reaction)
      requires Valid() && Frame.Decode(f).Ok? && Frame.Decode(f).value.header == h
      modifies relay.entries
      ensures Valid() && Step(Value(), r) == Engine.Transit(cr, old(Value()), f, h, now)
    {
      hide Value, Encode, Relay.Noted;
      FrameLength(f);
      hide Frame.Decode;
      var seen := ObserveRelay(cr.digest(Relay.Immutable(f)), now);
      if seen == Relay.Duplicate || !Relay.ShouldForward(h.hops, false, false) { return NOTHING; }
      var out := new byte[MAX_FRAME_LEN](i => 0);
      var n := Relay.PrepareForward(f, out);
      return Reaction(Forward, Some(Outgoing(out[..n.value], None, false, false)), None);
    }

    method NoteOrigin(f: bytes, now: u64)
      requires Valid()
      modifies relay.entries
      ensures Valid() && Value() == Engine.NoteOrigin(cr, old(Value()), f, now)
    {
      hide Value, Encode, Relay.Noted;
      if Frame.Decode(f).Ok? {
        var _ := ObserveRelay(cr.digest(Relay.Immutable(f)), now);
      }
    }

    method OnFrame(f: bytes, now: u64, ackPacketId: u32) returns (r: Reaction)
      requires Valid()
      modifies this, contacts, scratch, relay.entries
      ensures Valid() && Step(Value(), r) == Engine.OnFrame(cr, old(Value()), f, now, ackPacketId)
    {
      hide Value, Encode, Engine.Transit, TrySlot, FirstOpened, AnyBadTag, Engine.OnData, Engine.OnAck, InAcceptWindow, EpochOf;
      Reading();
      var d := Frame.Decode(f);
      if d.Err? { return NOTHING; }
      var h, body := d.value.header, d.value.body;
      if h.version != VERSION_SECURE { return NOTHING; }
      if !provisioned || fault || !timeValid {
        r := Transit(f, h, now);
        return;
      }
      var current := CurrentHour();
      if !InAcceptWindow(h.epoch, current) {
        r := Transit(f, h, now);
        return;
      }
      var slot, pt, failed := Authenticate(h, body);
      if slot.None? {
        if failed { CountFailure(); }
        r := Transit(f, h, now);
      } else if contacts[slot.value].blocked {
        r := NOTHING;
      } else {
        NodeFrames.OpenedFacts(cr, uid, contacts[slot.value], h, body);
        if pt[0] == BODY_DATA {
          r := OnData(slot.value, h, pt, ackPacketId);
        } else {
          r := OnAck(slot.value, h, pt);
        }
      }
    }
  }

  lemma RadioKept(s: State)
    ensures s.(radioOn := true, armedNextBoot := s.armedNextBoot) == s.(radioOn := true)
  {}

  /** What a commit does, by what was staged. */
  lemma CommitShape(s: State)
    ensures var (t, clear) := (Engine.CommitOk(s), s.(staged := None, dirty := false));
            match s.staged
            case Some(TxReserve(slot, newReserved)) =>
              t == if slot < MAX_CONTACTS then clear.(contacts := s.contacts[slot := s.contacts[slot].(txReserved := newReserved)]) else clear
            case Some(PairActivate(_)) => t == clear.(attempt := None)
            case _ => t == clear
  {}

  lemma ReadyMeans(s: State)
    requires Ceremony.Ready(s).None?
    ensures s.attempt.Some? && s.attempt.value.transcript.Some?
  {}

  lemma ActivateRefused(s: State, slot: nat, edPeer: bytes32, peerId: bytes8, root: bytes32, role: byte)
    ensures Activate(s, slot, edPeer, peerId, root, role).result.Some? ==> Activate(s, slot, edPeer, peerId, root, role).state == s
  {}

  lemma AbsentStays(c: Contact, epoch: u32)
    requires !c.present
    ensures AdvanceContact(c, epoch) == c
  {}

  lemma HasNumber(c: Contact)
    requires CanReserve(c)
    ensures c.txNext + 1 < U64
  {}

  lemma FrameLength(f: bytes)
    requires Frame.Decode(f).Ok?
    ensures 30 <= |f| <= MAX_FRAME_LEN
  {}
}
