/** The browser's notification store (the Redux slice in
    ui/src/store/notification/notification.slice.ts): a newest-first list of
    at most 50 notifications with read flags, plus the two display rules the
    bell and the toasts apply to it. */
module NotificationSlice {

  import opened Wrappers
  import opened Text
  import opened Events
  import opened Relay

  /** The store keeps the last 50 notifications. */
  const MaxNotifications: nat := 50

  /** One received notification. `entityType` and `operation` are kept as
      the strings that arrived. */
  datatype Notification = Notification(
    id: string,
    message: string,
    entityType: string,
    operation: string,
    entityId: Option<string>,
    timestamp: int,
    read: bool)

  const OperationLabels: map<string, string> :=
    map["CREATED" := "created", "UPDATED" := "updated", "DELETED" := "deleted"]

  const EntityLabels: map<string, string> :=
    map["COURSE" := "Course", "AUTHOR" := "Author", "USER" := "User"]

  /** `labels[code] ?? code`: the label, or the raw code when it has none. */
  function LabelOf(labels: map<string, string>, code: string): string {
    if code in labels then labels[code] else code
  }

  /** ` "<name>"` for a non-empty name, nothing otherwise. */
  function NameClause(name: Option<string>): (r: string)
    ensures Truthy(name) ==> r == " \"" + name.value + "\""
    ensures !Truthy(name) ==> r == ""
  {
    if Truthy(name) then " \"" + name.value + "\"" else ""
  }

  /** ` by <user>` for a non-empty initiator, nothing otherwise. */
  function ByClause(initiatedBy: Option<string>): (r: string)
    ensures Truthy(initiatedBy) ==> r == " by " + initiatedBy.value
    ensures !Truthy(initiatedBy) ==> r == ""
  {
    if Truthy(initiatedBy) then " by " + initiatedBy.value else ""
  }

  /** The part before " was ": the entity label and the name clause. */
  function MessageHead(msg: NotificationMessage): string {
    LabelOf(EntityLabels, msg.entityType) + NameClause(msg.entityName)
  }

  /** The part after " was ": the operation label, the by clause, the stop. */
  function MessageTail(msg: NotificationMessage): string {
    LabelOf(OperationLabels, msg.operation) + ByClause(msg.initiatedBy) + "."
  }

  /** `<Entity>[ "<name>"] was <operation>[ by <user>].`: the head, " was "
      and the tail, with nothing else in between. */
  function BuildMessage(msg: NotificationMessage): (r: string)
    ensures |r| >= 6 && r[|r| - 1] == '.'
    ensures StartsWith(r, MessageHead(msg) + " was ")
    ensures EndsWith(r, " was " + MessageTail(msg))
    ensures |r| == |MessageHead(msg)| + |" was "| + |MessageTail(msg)|
  {
    ConcatAround(MessageHead(msg), " was ", MessageTail(msg));
    MessageHead(msg) + " was " + MessageTail(msg)
  }

  lemma ConcatAround(head: string, middle: string, tail: string)
    ensures StartsWith(head + middle + tail, head + middle)
    ensures EndsWith(head + middle + tail, middle + tail)
  {
  }

  /** The labels a relayed event is shown with. */
  function EntityDisplay(t: EntityType): string {
    match t
    case COURSE => "Course"
    case AUTHOR => "Author"
    case USER => "User"
  }

  function OperationDisplay(op: OperationType): string {
    match op
    case CREATED => "created"
    case UPDATED => "updated"
    case DELETED => "deleted"
  }

  /** A message relayed from a server event always finds both labels: the
      raw-code fallback is never taken for it. */
  lemma BuildMessageOfEvent(event: OperationEvent)
    ensures BuildMessage(ToMessage(event))
         == EntityDisplay(event.entityType) + NameClause(event.entityName) + " was "
            + OperationDisplay(event.operation) + ByClause(event.initiatedBy) + "."
  {
  }

  /** The names every JavaScript object inherits from `Object.prototype`:
      a lookup `labels[code]` finds a value for these even when the label
      table has no entry of its own. */
  const ObjectPrototypeNames: set<string> :=
    {"constructor", "hasOwnProperty", "isPrototypeOf", "propertyIsEnumerable",
     "toLocaleString", "toString", "valueOf", "__proto__", "__defineGetter__",
     "__defineSetter__", "__lookupGetter__", "__lookupSetter__"}

  /** An unknown entity code is shown as it is, at the head of the message,
      and an unknown operation code as it is, right after " was ", provided
      neither is a name inherited from `Object.prototype`. */
  lemma BuildMessageFallback(msg: NotificationMessage)
    requires msg.entityType !in EntityLabels && msg.entityType !in ObjectPrototypeNames
    ensures StartsWith(BuildMessage(msg), msg.entityType)
    ensures (msg.operation !in OperationLabels && msg.operation !in ObjectPrototypeNames
             && !Truthy(msg.initiatedBy)) ==>
      EndsWith(BuildMessage(msg), " was " + msg.operation + ".")
    ensures (msg.operation !in OperationLabels && msg.operation !in ObjectPrototypeNames
             && Truthy(msg.initiatedBy)) ==>
      EndsWith(BuildMessage(msg), " was " + msg.operation + " by " + msg.initiatedBy.value + ".")
  {
  }

  /** The notification `addNotification` builds: unread, with the message's
      fields copied, and an id made of the timestamp, a dash and `suffix`, the
      random part (`Math.random().toString(36).slice(2)`). */
  function NewNotification(msg: NotificationMessage, suffix: string): (n: Notification)
    ensures !n.read
    ensures n.entityType == msg.entityType && n.operation == msg.operation
    ensures n.entityId == msg.entityId && n.timestamp == msg.timestamp
    ensures n.message == BuildMessage(msg)
    ensures StartsWith(n.id, IntToString(msg.timestamp) + "-") && EndsWith(n.id, suffix)
    ensures |n.id| == |IntToString(msg.timestamp)| + 1 + |suffix|
  {
    var prefix := IntToString(msg.timestamp) + "-";
    StartsWithAppend(prefix, suffix);
    EndsWithAppend(prefix, suffix);
    Notification(prefix + suffix, BuildMessage(msg), msg.entityType, msg.operation,
                 msg.entityId, msg.timestamp, false)
  }

  function Min(a: int, b: int): int {
    if a < b then a else b
  }

  /** `[n, ...list].slice(0, 50)`. */
  function Prepend(list: seq<Notification>, n: Notification): (r: seq<Notification>)
    ensures |r| == Min(|list| + 1, MaxNotifications)
    ensures r[0] == n
    ensures forall i :: 1 <= i < |r| ==> r[i] == list[i - 1]
  {
    ([n] + list)[..Min(|list| + 1, MaxNotifications)]
  }

  /** Below the cap nothing is evicted; at the cap exactly the oldest (last)
      entry is dropped. */
  lemma PrependEviction(list: seq<Notification>, n: Notification)
    requires |list| <= MaxNotifications
    ensures |list| < MaxNotifications ==> Prepend(list, n) == [n] + list
    ensures |list| == MaxNotifications ==> Prepend(list, n) == [n] + list[..MaxNotifications - 1]
  {
  }

  /** Every entry with its read flag set, nothing else changed. */
  function AllRead(list: seq<Notification>): (r: seq<Notification>)
    ensures |r| == |list|
    ensures forall i :: 0 <= i < |list| ==> r[i] == list[i].(read := true)
  {
    if list == [] then [] else [list[0].(read := true)] + AllRead(list[1..])
  }

  /** The number of unread notifications, as the bell counts them. */
  function UnreadCount(list: seq<Notification>): nat {
    if list == [] then 0 else (if list[0].read then 0 else 1) + UnreadCount(list[1..])
  }

  lemma {:induction false} UnreadCountZero(list: seq<Notification>)
    ensures UnreadCount(list) == 0 <==> forall i :: 0 <= i < |list| ==> list[i].read
  {
    if list != [] {
      UnreadCountZero(list[1..]);
      assert forall i :: 1 <= i < |list| ==> list[i] == list[1..][i - 1];
    }
  }

  lemma {:induction false} UnreadCountBound(list: seq<Notification>)
    ensures UnreadCount(list) <= |list|
  {
    if list != [] {
      UnreadCountBound(list[1..]);
    }
  }

  /** After `markAllRead` nothing is unread. */
  lemma AllReadUnreadCount(list: seq<Notification>)
    ensures UnreadCount(AllRead(list)) == 0
  {
    UnreadCountZero(AllRead(list));
  }

  /** Below the cap, a received notification adds exactly one unread. */
  lemma UnreadCountAfterAdd(list: seq<Notification>, msg: NotificationMessage, suffix: string)
    requires |list| < MaxNotifications
    ensures UnreadCount(Prepend(list, NewNotification(msg, suffix))) == UnreadCount(list) + 1
  {
    var r := Prepend(list, NewNotification(msg, suffix));
    PrependEviction(list, NewNotification(msg, suffix));
    assert r[1..] == list;
  }

  /** `notifications.filter((n) => !n.read)`. */
  function Unread(list: seq<Notification>): (r: seq<Notification>)
    ensures |r| == UnreadCount(list)
    ensures forall n :: n in r <==> n in list && !n.read
  {
    if list == [] then []
    else if list[0].read then Unread(list[1..])
    else [list[0]] + Unread(list[1..])
  }

  /** `filter` keeps order: filtering a concatenation is concatenating the
      filtered parts. */
  lemma {:induction false} UnreadAppend(a: seq<Notification>, b: seq<Notification>)
    ensures Unread(a + b) == Unread(a) + Unread(b)
    decreases |a|
  {
    if a == [] {
      assert a + b == b;
    } else {
      assert (a + b)[0] == a[0];
      assert (a + b)[1..] == a[1..] + b;
      UnreadAppend(a[1..], b);
      if !a[0].read {
        assert [a[0]] + (Unread(a[1..]) + Unread(b)) == [a[0]] + Unread(a[1..]) + Unread(b);
      }
    }
  }

  /** A single notification survives the filter exactly when it is unread. */
  lemma UnreadSingle(n: Notification)
    ensures Unread([n]) == if n.read then [] else [n]
  {
    assert [n][1..] == [];
  }

  /** The toasts shown: the first five unread notifications in list order,
      which, the list being newest first, are the newest five. */
  function Toasts(list: seq<Notification>): (r: seq<Notification>)
    ensures |r| == Min(UnreadCount(list), 5)
    ensures r <= Unread(list)
    ensures forall n :: n in r ==> n in list && !n.read
  {
    var u := Unread(list);
    u[..Min(|u|, 5)]
  }

  /** Dismissing a toast marks everything read, so no toast stays. */
  lemma ToastsAfterMarkAllRead(list: seq<Notification>)
    ensures Toasts(AllRead(list)) == []
  {
    AllReadUnreadCount(list);
  }

  /** The bell badge: hidden at zero, the count up to 9, then "9+". */
  function Badge(list: seq<Notification>): (r: Option<string>)
    ensures r.None? <==> forall i :: 0 <= i < |list| ==> list[i].read
    ensures UnreadCount(list) > 9 <==> r == Some("9+")
    ensures 0 < UnreadCount(list) <= 9 ==> r == Some(NatToString(UnreadCount(list)))
    ensures r.Some? && r != Some("9+") ==> IsDigits(r.value) && ParseNat(r.value) == UnreadCount(list)
  {
    UnreadCountZero(list);
    var count := UnreadCount(list);
    ParseNatToString(count);
    if count == 0 then None
    else if count > 9 then Some("9+")
    else Some(NatToString(count))
  }

  /** The slice state, updated in place by its reducers. */
  class NotificationSliceState {
    var notifications: seq<Notification>

    ghost predicate Valid()
      reads this
    {
      |notifications| <= MaxNotifications
    }

    /** `initialState`. */
    constructor ()
      ensures Valid() && notifications == []
    {
      notifications := [];
    }

    method AddNotification(msg: NotificationMessage, suffix: string)
      requires Valid()
      modifies this
      ensures Valid()
      ensures notifications == Prepend(old(notifications), NewNotification(msg, suffix))
    {
      var notification := NewNotification(msg, suffix);
      notifications := ([notification] + notifications)[..Min(|notifications| + 1, MaxNotifications)];
    }

    /** `forEach((n) => (n.read = true))`. */
    method MarkAllRead()
      requires Valid()
      modifies this
      ensures Valid()
      ensures notifications == AllRead(old(notifications))
    {
      var i := 0;
      while i < |notifications|
        invariant 0 <= i <= |notifications| == |old(notifications)|
        invariant forall k :: 0 <= k < i ==> notifications[k] == old(notifications)[k].(read := true)
        invariant forall k :: i <= k < |notifications| ==> notifications[k] == old(notifications)[k]
      {
        notifications := notifications[i := notifications[i].(read := true)];
        i := i + 1;
      }
    }

    method ClearNotifications()
      modifies this
      ensures Valid() && notifications == []
    {
      notifications := [];
    }
  }
}
