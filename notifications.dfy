/**
 * Product alert subscriptions (frontend/src/contexts/NotificationContext.jsx):
 * a newest-first list of records with read and fulfilled flags, mirrored to a
 * storage key derived from the signed-in user while one is signed in.
 */
module NotificationContext {
  import opened Wrappers
  import opened Text
  import opened Json
  import JsonList
  import opened LocalStorage

  /** A payload field that is not one of the record's own fields (productName, email, targetPrice, ...). */
  datatype Field = Field(name: string, value: Value)

  datatype Notification = Notification(
    id: string,
    productId: nat,
    kind: string,
    createdAt: string,
    read: bool,
    fulfilled: bool,   // absent reads as false in `!n.fulfilled`
    extra: seq<Field>)

  /**
   * The `data` argument of addNotification. It is spread last, so each field it
   * carries overrides the record's own; `extra` holds the fields the record
   * does not otherwise have.
   */
  datatype Payload = Payload(
    id: Option<string>,
    productId: Option<nat>,
    kind: Option<string>,
    createdAt: Option<string>,
    read: Option<bool>,
    fulfilled: Option<bool>,
    extra: seq<Field>)

  /** The payloads the subscription forms send: only fields of their own. */
  predicate OverridesNothing(d: Payload) {
    d.id.None? && d.productId.None? && d.kind.None? && d.createdAt.None? && d.read.None? && d.fulfilled.None?
  }

  function OrElse<T>(o: Option<T>, d: T): (r: T)
    ensures o.None? ==> r == d
    ensures o.Some? ==> r == o.value
  {
    if o.Some? then o.value else d
  }

  /**
   * The record addNotification builds: id from the clock (`now`, in
   * milliseconds), the given product id and type, the creation time, unread,
   * then the payload spread over it.
   */
  function NewNotification(productId: nat, kind: string, data: Payload, now: nat, createdAt: string): (n: Notification)
    ensures OverridesNothing(data) ==>
      && n.id == NatToString(now) && n.productId == productId && n.kind == kind
      && n.createdAt == createdAt && !n.read && !n.fulfilled
    ensures n.extra == data.extra
    ensures data.id.Some? ==> n.id == data.id.value
    ensures data.id.None? ==> n.id == NatToString(now)
    ensures data.productId.Some? ==> n.productId == data.productId.value
    ensures data.productId.None? ==> n.productId == productId
    ensures data.kind.Some? ==> n.kind == data.kind.value
    ensures data.kind.None? ==> n.kind == kind
    ensures data.createdAt.Some? ==> n.createdAt == data.createdAt.value
    ensures data.createdAt.None? ==> n.createdAt == createdAt
    ensures data.read.Some? ==> n.read == data.read.value
    ensures data.read.None? ==> !n.read
    ensures data.fulfilled.Some? ==> n.fulfilled == data.fulfilled.value
    ensures data.fulfilled.None? ==> !n.fulfilled
  {
    Notification(
      OrElse(data.id, NatToString(now)),
      OrElse(data.productId, productId),
      OrElse(data.kind, kind),
      OrElse(data.createdAt, createdAt),
      OrElse(data.read, false),
      OrElse(data.fulfilled, false),
      data.extra)
  }

  /** markAsRead: the records with that id become read; nothing else changes. */
  function MarkRead(ns: seq<Notification>, id: string): (r: seq<Notification>)
    ensures |r| == |ns|
    ensures forall i :: 0 <= i < |ns| ==>
      r[i] == if ns[i].id == id then ns[i].(read := true) else ns[i]
  {
    seq(|ns|, i requires 0 <= i < |ns| => if ns[i].id == id then ns[i].(read := true) else ns[i])
  }

  /** removeNotification: keep the records with a different id. */
  function RemoveById(ns: seq<Notification>, id: string): (r: seq<Notification>)
    ensures forall n :: n in r <==> n in ns && n.id != id
    ensures |r| <= |ns|
  {
    if |ns| == 0 then []
    else if ns[0].id != id then [ns[0]] + RemoveById(ns[1..], id)
    else RemoveById(ns[1..], id)
  }

  /** getProductNotifications: the records for one product, in list order. */
  function ForProduct(ns: seq<Notification>, pid: nat): (r: seq<Notification>)
    ensures forall n :: n in r <==> n in ns && n.productId == pid
    ensures |r| <= |ns|
  {
    if |ns| == 0 then []
    else if ns[0].productId == pid then [ns[0]] + ForProduct(ns[1..], pid)
    else ForProduct(ns[1..], pid)
  }

  predicate Active(n: Notification, pid: nat, kind: string) {
    n.productId == pid && n.kind == kind && !n.fulfilled
  }

  /** hasNotification: some record for that product and type is not fulfilled. */
  function HasActive(ns: seq<Notification>, pid: nat, kind: string): (b: bool)
    ensures b <==> exists i :: 0 <= i < |ns| && Active(ns[i], pid, kind)
  {
    if |ns| == 0 then false
    else Active(ns[0], pid, kind) || HasActive(ns[1..], pid, kind)
  }

  /** Number of records for that product and type, fulfilled or not. */
  function CountFor(ns: seq<Notification>, pid: nat, kind: string): nat {
    if |ns| == 0 then 0
    else (if ns[0].productId == pid && ns[0].kind == kind then 1 else 0) + CountFor(ns[1..], pid, kind)
  }

  /** The unread badge of the notification button: notifications.filter(n => !n.read).length. */
  function UnreadCount(ns: seq<Notification>): nat {
    if |ns| == 0 then 0 else (if ns[0].read then 0 else 1) + UnreadCount(ns[1..])
  }

  /** "Mark all as read": markAsRead for the id of every record, one after the other. */
  function MarkAllRead(ns: seq<Notification>, ids: seq<string>): seq<Notification>
    decreases |ids|
  {
    if |ids| == 0 then ns else MarkAllRead(MarkRead(ns, ids[0]), ids[1..])
  }

  function Ids(ns: seq<Notification>): (r: seq<string>)
    ensures |r| == |ns|
    ensures forall i :: 0 <= i < |ns| ==> r[i] == ns[i].id
  {
    seq(|ns|, i requires 0 <= i < |ns| => ns[i].id)
  }

  // ---------------------------------------------------------------------------
  // Properties
  // ---------------------------------------------------------------------------

  /**
   * Adding always grows the list by one record at the front, and there is no
   * de-duplication: the number of records for that product and type goes up by one.
   */
  lemma AddGrows(ns: seq<Notification>, pid: nat, kind: string, data: Payload, now: nat, createdAt: string)
    requires data.productId.None? && data.kind.None?
    ensures CountFor([NewNotification(pid, kind, data, now, createdAt)] + ns, pid, kind) == CountFor(ns, pid, kind) + 1
  {
    var n := NewNotification(pid, kind, data, now, createdAt);
    assert ([n] + ns)[1..] == ns;
  }

  /** Right after subscribing, hasNotification answers true for that product and type. */
  lemma AddThenActive(ns: seq<Notification>, pid: nat, kind: string, data: Payload, now: nat, createdAt: string)
    requires data.productId.None? && data.kind.None?
    requires data.fulfilled.None? || !data.fulfilled.value
    ensures HasActive([NewNotification(pid, kind, data, now, createdAt)] + ns, pid, kind)
  {
    var n := NewNotification(pid, kind, data, now, createdAt);
    assert Active(([n] + ns)[0], pid, kind);
  }

  /** Marking as read never changes hasNotification: read and fulfilled are independent. */
  lemma MarkReadKeepsActive(ns: seq<Notification>, id: string, pid: nat, kind: string)
    ensures HasActive(MarkRead(ns, id), pid, kind) == HasActive(ns, pid, kind)
  {
    var r := MarkRead(ns, id);
    if HasActive(ns, pid, kind) {
      var i :| 0 <= i < |ns| && Active(ns[i], pid, kind);
      assert Active(r[i], pid, kind);
    }
    if HasActive(r, pid, kind) {
      var i :| 0 <= i < |r| && Active(r[i], pid, kind);
      assert Active(ns[i], pid, kind);
    }
  }

  /** Marking as read is idempotent and keeps every record's id, product and type in place. */
  lemma MarkReadIdempotent(ns: seq<Notification>, id: string)
    ensures MarkRead(MarkRead(ns, id), id) == MarkRead(ns, id)
    ensures forall i :: 0 <= i < |ns| ==>
      var r := MarkRead(ns, id)[i];
      r.id == ns[i].id && r.productId == ns[i].productId && r.kind == ns[i].kind
  {
  }

  /** Removing distributes over concatenation, so the kept records stay in order. */
  lemma {:induction false} RemoveByIdAppend(a: seq<Notification>, b: seq<Notification>, id: string)
    ensures RemoveById(a + b, id) == RemoveById(a, id) + RemoveById(b, id)
    decreases |a|
  {
    if |a| == 0 {
      assert a + b == b;
    } else {
      assert (a + b)[1..] == a[1..] + b;
      RemoveByIdAppend(a[1..], b, id);
    }
  }

  /** Filtering on the product distributes over concatenation, so list order is kept. */
  lemma {:induction false} ForProductAppend(a: seq<Notification>, b: seq<Notification>, pid: nat)
    ensures ForProduct(a + b, pid) == ForProduct(a, pid) + ForProduct(b, pid)
    decreases |a|
  {
    if |a| == 0 {
      assert a + b == b;
    } else {
      assert (a + b)[1..] == a[1..] + b;
      ForProductAppend(a[1..], b, pid);
    }
  }

  /**
   * Once the only records matching a product and type (all carrying one id)
   * are removed, hasNotification answers false.
   */
  lemma RemoveOnlyMatch(ns: seq<Notification>, id: string, pid: nat, kind: string)
    requires forall i :: 0 <= i < |ns| && Active(ns[i], pid, kind) ==> ns[i].id == id
    ensures !HasActive(RemoveById(ns, id), pid, kind)
  {
    var r := RemoveById(ns, id);
    forall i | 0 <= i < |r| ensures !Active(r[i], pid, kind) {
      assert r[i] in ns;
    }
  }

  /** After "mark all as read" nothing is unread, and the list keeps its length. */
  lemma {:induction false} MarkAllReadClears(ns: seq<Notification>, ids: seq<string>)
    requires forall i :: 0 <= i < |ns| ==> ns[i].read || ns[i].id in ids
    ensures |MarkAllRead(ns, ids)| == |ns|
    ensures forall i :: 0 <= i < |ns| ==> MarkAllRead(ns, ids)[i].read
    decreases |ids|
  {
    if |ids| > 0 {
      var m := MarkRead(ns, ids[0]);
      forall i | 0 <= i < |m| ensures m[i].read || m[i].id in ids[1..] {
        if !m[i].read {
          assert ns[i].id != ids[0];
          assert ns[i].id in ids;
        }
      }
      MarkAllReadClears(m, ids[1..]);
    }
  }

  lemma {:induction false} UnreadCountZero(ns: seq<Notification>)
    requires forall i :: 0 <= i < |ns| ==> ns[i].read
    ensures UnreadCount(ns) == 0
    decreases |ns|
  {
    if |ns| > 0 {
      UnreadCountZero(ns[1..]);
    }
  }

  lemma MarkAllReadOfList(ns: seq<Notification>)
    ensures UnreadCount(MarkAllRead(ns, Ids(ns))) == 0
  {
    var ids := Ids(ns);
    forall i | 0 <= i < |ns| ensures ns[i].read || ns[i].id in ids {
      assert ids[i] == ns[i].id;
    }
    MarkAllReadClears(ns, ids);
    UnreadCountZero(MarkAllRead(ns, ids));
  }

  // ---------------------------------------------------------------------------
  // Stored form
  // ---------------------------------------------------------------------------

  function FieldToValue(f: Field): Value { Arr([Str(f.name), f.value]) }

  function FieldFromValue(v: Value): (r: Option<Field>)
    ensures r.Some? ==> FieldToValue(r.value) == v
  {
    if v.Arr? && |v.elems| == 2 && v.elems[0].Str? then
      assert v.elems == [v.elems[0], v.elems[1]];
      Some(Field(v.elems[0].s, v.elems[1]))
    else None
  }

  function ToValue(n: Notification): Value {
    Arr([Str(n.id), Num(n.productId), Str(n.kind), Str(n.createdAt), Bool(n.read), Bool(n.fulfilled),
         JsonList.EncodeList(n.extra, FieldToValue)])
  }

  function FromValue(v: Value): Option<Notification> {
    if v.Arr? && |v.elems| == 7 then
      var f := v.elems;
      if f[0].Str? && f[1].Num? && f[1].n >= 0 && f[2].Str? && f[3].Str? && f[4].Bool? && f[5].Bool? then
        match JsonList.DecodeList(f[6], FieldFromValue)
        case None => None
        case Some(extra) => Some(Notification(f[0].s, f[1].n, f[2].s, f[3].s, f[4].b, f[5].b, extra))
      else None
    else None
  }

  lemma RoundTrip(n: Notification)
    ensures FromValue(ToValue(n)) == Some(n)
  {
    forall f ensures FieldFromValue(FieldToValue(f)) == Some(f) { }
    JsonList.DecodeEncodeList(n.extra, FieldToValue, FieldFromValue);
  }

  function Serialize(ns: seq<Notification>): string {
    Stringify(JsonList.EncodeList(ns, ToValue))
  }

  function ParseList(text: string): Option<seq<Notification>> {
    match Parse(text)
    case None => None
    case Some(v) => JsonList.DecodeList(v, FromValue)
  }

  lemma ParseSerialize(ns: seq<Notification>)
    ensures ParseList(Serialize(ns)) == Some(ns)
  {
    ParseStringify(JsonList.EncodeList(ns, ToValue));
    forall n ensures FromValue(ToValue(n)) == Some(n) {
      RoundTrip(n);
    }
    JsonList.DecodeEncodeList(ns, ToValue, FromValue);
  }

  /** The storage key `notifications_<uid>` of a signed-in user. */
  function KeyFor(uid: string): string { "notifications_" + uid }

  lemma KeysDiffer(a: string, b: string)
    requires a != b
    ensures KeyFor(a) != KeyFor(b)
  {
    assert KeyFor(a)[14..] == a && KeyFor(b)[14..] == b;
  }

  // ---------------------------------------------------------------------------
  // The provider
  // ---------------------------------------------------------------------------

  class NotificationProvider {
    const storage: Storage
    var notifications: seq<Notification>
    var loading: bool
    /** The user id the storage key is built from; None while signed out. */
    var user: Option<string>

    /** While a user is signed in and loading is over, their key holds the list. */
    ghost predicate Valid()
      reads this, storage
    {
      user.Some? && !loading ==>
        KeyFor(user.value) in storage.entries && storage.entries[KeyFor(user.value)] == Serialize(notifications)
    }

    constructor (storage: Storage)
      ensures this.storage == storage
      ensures notifications == [] && loading && user == None
      ensures Valid()
    {
      this.storage := storage;
      notifications := [];
      loading := true;
      user := None;
    }

    /**
     * The two effects that run when the signed-in user changes (and on mount).
     * A saved list for the new user replaces the current one; when there is none
     * the current list is kept. An unparsable saved list throws: nothing else
     * changes and nothing is written. Otherwise loading ends and, with a user
     * signed in, the list is written under that user's key.
     */
    method UserChanged(u: Option<string>) returns (ok: bool)
      modifies this, storage
      ensures user == u
      ensures var saved := if u.Some? then old(storage.GetItem(KeyFor(u.value))) else None;
        if saved.Some? && saved.value != "" then
          if ParseList(saved.value).None? then
            !ok && notifications == old(notifications) && loading == old(loading)
            && storage.entries == old(storage.entries)
          else
            ok && notifications == ParseList(saved.value).value && !loading
        else
          ok && notifications == old(notifications) && !loading
      ensures ok && u.Some? ==> storage.entries == old(storage.entries)[KeyFor(u.value) := Serialize(notifications)]
      ensures ok && u.None? ==> storage.entries == old(storage.entries)
      ensures ok ==> Valid()
    {
      user := u;
      if u.Some? {
        var saved := storage.GetItem(KeyFor(u.value));
        if saved.Some? && saved.value != "" {
          var parsed := ParseList(saved.value);
          if parsed.None? {
            return false;
          }
          notifications := parsed.value;
        }
      }
      loading := false;
      Save();
      return true;
    }

    /** The save effect: only with a user signed in and loading over. */
    method Save()
      modifies storage
      ensures user.Some? && !loading ==>
        storage.entries == old(storage.entries)[KeyFor(user.value) := Serialize(notifications)]
      ensures user.None? || loading ==> storage.entries == old(storage.entries)
      ensures Valid()
    {
      if user.Some? && !loading {
        storage.SetItem(KeyFor(user.value), Serialize(notifications));
      }
    }

    /** Prepends the new record and returns it. */
    method AddNotification(productId: nat, kind: string, data: Payload, now: nat, createdAt: string)
      returns (n: Notification)
      modifies this, storage
      ensures n == NewNotification(productId, kind, data, now, createdAt)
      ensures notifications == [n] + old(notifications)
      ensures user == old(user) && loading == old(loading)
      ensures user.Some? && !loading ==>
        storage.entries == old(storage.entries)[KeyFor(user.value) := Serialize(notifications)]
      ensures user.None? || loading ==> storage.entries == old(storage.entries)
      ensures Valid()
    {
      n := NewNotification(productId, kind, data, now, createdAt);
      notifications := [n] + notifications;
      Save();
    }

    method MarkAsRead(id: string)
      modifies this, storage
      ensures notifications == MarkRead(old(notifications), id)
      ensures user == old(user) && loading == old(loading)
      ensures user.Some? && !loading ==>
        storage.entries == old(storage.entries)[KeyFor(user.value) := Serialize(notifications)]
      ensures user.None? || loading ==> storage.entries == old(storage.entries)
      ensures Valid()
    {
      notifications := MarkRead(notifications, id);
      Save();
    }

    method RemoveNotification(id: string)
      modifies this, storage
      ensures notifications == RemoveById(old(notifications), id)
      ensures user == old(user) && loading == old(loading)
      ensures user.Some? && !loading ==>
        storage.entries == old(storage.entries)[KeyFor(user.value) := Serialize(notifications)]
      ensures user.None? || loading ==> storage.entries == old(storage.entries)
      ensures Valid()
    {
      notifications := RemoveById(notifications, id);
      Save();
    }

    function GetProductNotifications(pid: nat): seq<Notification>
      reads this
    {
      ForProduct(notifications, pid)
    }

    function HasNotification(pid: nat, kind: string): bool
      reads this
    {
      HasActive(notifications, pid, kind)
    }
  }
}
