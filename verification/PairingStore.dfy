/**
  The keys of pairing slots and devices as they lie in memory: a slot's key is wiped in
  place when the slot burns, so a device must hold a copy of its own.
 */
module PairingStore {
  import opened Basics
  import opened Pairing

  ghost function Contents<K>(m: map<K, array<Byte>>): map<K, Bytes>
    reads m.Values
  {
    map k | k in m :: m[k][..]
  }

  class PairingEngine {
    var slots: map<SlotId, Slot>
    var psks: map<SlotId, array<Byte>>
    var current: Option<SlotId>
    var devices: map<DeviceId, array<Byte>>
    const auto: bool
    ghost var rows: seq<(SlotId, DeviceId)>

    ghost function Abs(): State
      reads this, psks.Values, devices.Values
    {
      State(slots, Contents(psks), current, Contents(devices), auto, rows)
    }

    // No key is shared between two slots or between a slot and a device.
    ghost predicate Separate()
      reads this
    {
      && (forall id, d :: id in psks && d in devices ==> psks[id] != devices[d])
      && (forall a, b :: a in psks && b in psks && a != b ==> psks[a] != psks[b])
    }

    method Wipe(psk: array<Byte>)
      modifies psk
      ensures psk[..] == Zeros(old(psk[..]))
    {
      var i := 0;
      while i < psk.Length
        invariant 0 <= i <= psk.Length && forall j :: 0 <= j < i ==> psk[j] == 0
      {
        psk[i] := 0;
        i := i + 1;
      }
    }

    // The slot's key is gone; every device's key is what it was.
    method BurnSlot(id: SlotId)
      requires Separate()
      modifies this`slots, this`current, if id in psks then {psks[id]} else {}
      ensures Separate() && Abs() == Burn(old(Abs()), id)
      ensures forall d :: d in devices ==> devices[d][..] == old(devices[d][..])
    {
      if id !in slots || id !in psks || slots[id].closed { return; }
      ghost var was := Abs();
      slots := slots[id := slots[id].(closed := true, admitted := false, keys := false, verifier := false)];
      Wipe(psks[id]);
      if current == Some(id) { current := None; }
      assert Contents(devices) == was.devices;
      assert Contents(psks) == was.psks[id := Zeros(was.psks[id])];
    }

    method StoreKey(id: SlotId, psk: array<Byte>)
      requires Separate() && id in psks
      requires forall k :: k in psks ==> psks[k] != psk
      requires forall d :: d in devices ==> devices[d] != psk
      modifies this`psks
      ensures Separate() && psks == old(psks)[id := psk]
      ensures Abs() == old(Abs()).(psks := old(Abs()).psks[id := psk[..]])
    {
      ghost var was := Abs();
      psks := psks[id := psk];
      assert Contents(psks) == was.psks[id := psk[..]];
    }

    // An accepted confirmation is taken up; the slot is live and confirmed, or nothing follows.
    method TakeAccepted(id: SlotId) returns (live: bool)
      requires Separate() && id in slots && slots[id].accepted > 0
      modifies this`slots
      ensures Separate() && Abs() == Taken(old(Abs()), id) && live == Ready(Abs(), id)
      ensures slots.Keys == old(slots).Keys && (live ==> id in psks)
    {
      slots := slots[id := slots[id].(accepted := slots[id].accepted - 1)];
      live := id in psks && !slots[id].closed && current == Some(id) && slots[id].confirmVerified;
    }

    method Credit(id: SlotId, dev: DeviceId, psk: array<Byte>)
      requires Separate() && id in slots && id in psks
      requires forall k :: k in psks ==> psks[k] != psk
      requires forall d :: d in devices ==> devices[d] != psk
      modifies this`slots, this`psks
      ensures Separate() && psks == old(psks)[id := psk] && Abs() == Credited(old(Abs()), id, dev, psk[..])
    {
      slots := slots[id := slots[id].(deviceId := dev, pairedAEAD := true)];
      hide Contents;
      StoreKey(id, psk);
    }

    // Fresh credentials go into the slot; if they cannot be sent the slot burns, and they with it.
    method IssueSlot(id: SlotId, dev: DeviceId, psk: array<Byte>, sent: bool)
      requires Separate()
      requires forall k :: k in psks ==> psks[k] != psk
      requires forall d :: d in devices ==> devices[d] != psk
      modifies this`slots, this`current, this`psks, psk
      ensures Separate() && Abs() == Issue(old(Abs()), id, dev, old(psk[..]), sent)
    {
      hide Contents, Burn, Taken, Ready, Credited, Issue;
      ghost var was := Abs();
      IssueIs(was, id, dev, psk[..], sent);
      if id !in slots || slots[id].accepted == 0 { return; }
      var live := TakeAccepted(id);
      if !live { return; }
      Credit(id, dev, psk);
      if !sent { BurnSlot(id); }
    }

    method AddDevice(id: SlotId, dev: DeviceId)
      requires Separate() && id in psks
      modifies this`devices
      ensures Separate() && Abs() == old(Abs()).(devices := old(Abs()).devices[dev := old(Abs()).psks[id]])
    {
      ghost var was := Abs();
      var psk := psks[id];
      var copy := new Byte[psk.Length](i requires 0 <= i < psk.Length reads psk => psk[i]);
      assert copy[..] == psk[..];
      devices := devices[dev := copy];
      assert Contents(devices) == was.devices[dev := psk[..]];
      assert Contents(psks) == was.psks;
    }

    // The device row goes back if it could not be saved.
    method RemoveDevice(dev: DeviceId)
      requires Separate()
      modifies this`devices
      ensures Separate() && Abs() == old(Abs()).(devices := old(Abs()).devices - {dev})
    {
      ghost var was := Abs();
      devices := devices - {dev};
      assert Contents(devices) == was.devices - {dev};
    }

    ghost method NoteRow(id: SlotId, dev: DeviceId)
      requires Separate()
      modifies this`rows
      ensures Separate() && Abs() == old(Abs()).(rows := old(Abs()).rows + [(id, dev)])
    {
      rows := rows + [(id, dev)];
    }

    method SaveDevice(id: SlotId, dev: DeviceId, saved: bool)
      requires Separate() && id in psks
      modifies this`devices, this`rows
      ensures Separate() && Abs() == Recorded(old(Abs()), id, dev, saved)
    {
      ghost var was := Abs();
      assert id in was.psks;
      hide Contents;
      AddDevice(id, dev);
      if saved {
        NoteRow(id, dev);
      } else {
        RemoveDevice(dev);
        AddRemove(was.devices, dev, was.psks[id]);
      }
    }

    method AcknowledgeSlot(id: SlotId, saved: bool)
      requires Separate() && id in slots && id in psks && !slots[id].closed
      modifies this`slots, this`current, this`devices, this`rows, psks[id]
      ensures Separate() && Abs() == Acknowledge(old(Abs()), id, saved)
    {
      hide Burn, Recorded;
      ghost var was := Abs();
      var dev := slots[id].deviceId;
      SaveDevice(id, dev, saved);
      BurnSlot(id);
      BurnCommutes(was, id, dev, saved);
    }
  }

  ghost function Taken(s: State, id: SlotId): State
    requires id in s.slots && s.slots[id].accepted > 0
  {
    With(s, id, s.slots[id].(accepted := s.slots[id].accepted - 1))
  }

  ghost predicate Ready(s: State, id: SlotId) { Live(s, id) && s.slots[id].confirmVerified }

  ghost function Credited(s: State, id: SlotId, dev: DeviceId, psk: Bytes): State
    requires id in s.slots
  {
    With(s, id, s.slots[id].(deviceId := dev, pairedAEAD := true)).(psks := s.psks[id := psk])
  }

  lemma IssueIs(s: State, id: SlotId, dev: DeviceId, psk: Bytes, sent: bool)
    ensures id !in s.slots || s.slots[id].accepted == 0 ==> Issue(s, id, dev, psk, sent) == s
    ensures id in s.slots && s.slots[id].accepted > 0 ==>
      var t := Taken(s, id);
      && id in t.slots
      && Issue(s, id, dev, psk, sent) == if !Ready(t, id) then t
                                         else if sent then Credited(t, id, dev, psk)
                                         else Burn(Credited(t, id, dev, psk), id)
  {
  }

  // The state with the device row saved, or taken back.
  ghost function Recorded(s: State, id: SlotId, dev: DeviceId, saved: bool): State
    requires id in s.psks
  {
    if saved then s.(devices := s.devices[dev := s.psks[id]], rows := s.rows + [(id, dev)])
    else s.(devices := s.devices - {dev})
  }

  lemma BurnCommutes(s: State, id: SlotId, dev: DeviceId, saved: bool)
    requires Open(s, id) && dev == s.slots[id].deviceId
    ensures Burn(Recorded(s, id, dev, saved), id) == Acknowledge(s, id, saved)
  {
  }

  lemma AddRemove(m: map<DeviceId, Bytes>, d: DeviceId, v: Bytes)
    ensures m[d := v] - {d} == m - {d}
  {
  }
}
