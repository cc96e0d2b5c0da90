/** Devices with their acknowledged cursors, the least of them, and the cursor expiry check. */
module Devices {
  import opened Records

  const DEFAULT_INACTIVE_DEVICE_WINDOW: Time := 90 * 24 * 60 * 60

  datatype Device = Device(lastSeen: Time, ack: nat)

  type DeviceTable = map<Uuid, Device>

  /** The window shared by retention and the expiry check. */
  function EffectiveInactiveWindow(window: Time): (w: Time)
    ensures w > 0 && (window > 0 ==> w == window) && (window <= 0 ==> w == 90 * 24 * 3600)
  {
    if window <= 0 then DEFAULT_INACTIVE_DEVICE_WINDOW else window
  }

  predicate Active(devices: DeviceTable, d: Uuid, cutoff: Time) {
    d in devices && devices[d].lastSeen > cutoff
  }

  /** `min` is the least acknowledged cursor of the active devices, or 0 when none is active. */
  ghost predicate IsMinAck(devices: DeviceTable, cutoff: Time, min: nat) {
    && (forall d :: Active(devices, d, cutoff) ==> min <= devices[d].ack)
    && ((exists d :: Active(devices, d, cutoff) && devices[d].ack == min)
        || (min == 0 && forall d :: !Active(devices, d, cutoff)))
  }

  /** `MinValidCursorForUser`. */
  method MinValidCursor(devices: DeviceTable, cutoff: Time) returns (min: nat)
    ensures IsMinAck(devices, cutoff, min)
  {
    min := 0;
    var found := false;
    var left := devices.Keys;
    while left != {}
      invariant left <= devices.Keys
      invariant forall d :: Active(devices, d, cutoff) && d !in left ==> found && min <= devices[d].ack
      invariant found ==> exists d :: Active(devices, d, cutoff) && devices[d].ack == min
      invariant !found ==> min == 0
      decreases left
    {
      var d :| d in left;
      if devices[d].lastSeen > cutoff {
        assert Active(devices, d, cutoff);
        if !found || devices[d].ack < min {
          min := devices[d].ack;
        }
        found := true;
      }
      left := left - {d};
    }
  }

  /** Insert the device, or refresh the time it was last seen. A new device has acknowledged nothing. */
  function Touch(devices: DeviceTable, d: Uuid, at: Time): DeviceTable {
    devices[d := Device(at, if d in devices then devices[d].ack else 0)]
  }

  /** `UpdateDeviceAckCursor`: only ever upwards. */
  function Acknowledge(devices: DeviceTable, d: Uuid, cursor: nat): DeviceTable {
    if d in devices && devices[d].ack < cursor then devices[d := devices[d].(ack := cursor)] else devices
  }

  lemma {:induction false} MinAckIsUnique(devices: DeviceTable, cutoff: Time, a: nat, b: nat)
    requires IsMinAck(devices, cutoff, a) && IsMinAck(devices, cutoff, b)
    ensures a == b
  {
  }

  /** The expiry check, given the minimum it read. */
  predicate Expired(cursor: int, minValid: nat) {
    cursor > 0 && minValid > 0 && cursor < minValid
  }

  /** An active device whose cursor has reached its own acknowledgement is never told to resync. */
  lemma {:induction false} ActiveDeviceNotExpired(devices: DeviceTable, cutoff: Time, min: nat, d: Uuid, cursor: int)
    requires IsMinAck(devices, cutoff, min)
    requires Active(devices, d, cutoff) && cursor >= devices[d].ack
    ensures !Expired(cursor, min)
  {
  }

  /** A device that was just seen is active for every cutoff before that moment; it keeps its acknowledgement, and others are as before. */
  lemma {:induction false} SeenIsActive(devices: DeviceTable, d: Uuid, at: Time, cutoff: Time)
    ensures var t := Touch(devices, d, at);
            && (Active(t, d, cutoff) <==> at > cutoff)
            && t.Keys == devices.Keys + {d}
            && t[d].ack == (if d in devices then devices[d].ack else 0)
            && (forall e <- devices :: e != d ==> t[e] == devices[e])
  {
  }

  /** A known device's acknowledgement is the greatest cursor it has reported; nothing else changes. */
  lemma {:induction false} AckIsMaximum(devices: DeviceTable, d: Uuid, cursor: nat)
    ensures var t := Acknowledge(devices, d, cursor);
            && t.Keys == devices.Keys
            && (d in devices ==> && t[d].ack >= devices[d].ack && t[d].ack >= cursor
                                 && (t[d].ack == devices[d].ack || t[d].ack == cursor)
                                 && t[d].lastSeen == devices[d].lastSeen)
            && (forall e <- devices :: e != d ==> t[e] == devices[e])
  {
  }
}
