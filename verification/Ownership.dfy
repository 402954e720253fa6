/**
 Who owns a device. A worker is identified by its host and a device by
 host:name, so as long as no host has a colon in its name the id of a device
 decides its owner for ever.
 */
module Ownership {
  import opened Model
  import opened Invariant

  /** handleRegister: a worker is identified by its host, a device by host:name. */
  function DeviceId(host: string, name: string): string {
    host + ":" + name
  }

  function DeviceIds(host: string, names: set<string>): set<string> {
    set n | n in names :: DeviceId(host, n)
  }

  /** The part of a device id before its first colon. */
  function HostOf(d: string): string {
    if d == "" || d[0] == ':' then "" else [d[0]] + HostOf(d[1..])
  }

  lemma {:induction false} HostOfId(host: string, name: string)
    requires ':' !in host
    ensures HostOf(DeviceId(host, name)) == host
  {
    if host != "" {
      HostOfId(host[1..], name);
      assert DeviceId(host, name)[1..] == DeviceId(host[1..], name);
    }
  }

  ghost predicate Keyed(db: Db, d: string) {
    d in db.devices ==> db.devices[d].worker == HostOf(d)
  }

  ghost predicate Sound(db: Db) {
    Valid(db) && forall d :: Keyed(db, d)
  }

  lemma IdsBelongToHost(host: string, names: set<string>, d: string)
    requires ':' !in host && d in DeviceIds(host, names)
    ensures HostOf(d) == host
  {
    var n :| n in names && d == DeviceId(host, n);
    HostOfId(host, n);
  }
}
