/** The price-alert store: the alert routes over the `Alert` collection.
    Create validates the body, PATCH and DELETE act only on the caller's own
    alert, and the count and the list read the caller's alerts. */
module Alerts {
  import opened Js
  import opened Sorting

  /** The `condition` enum of the schema. */
  datatype Condition = Above | Below

  /** An `Alert` document; `id` stands for `_id`. */
  datatype Alert = Alert(
    id: nat,
    userId: UserId,
    symbol: string,
    name: string,
    targetPrice: real,
    condition: Condition,
    isActive: bool,
    triggered: bool,
    createdAt: int)

  /** The string stored for a condition. */
  function ConditionName(c: Condition): string {
    match c
    case Above => "above"
    case Below => "below"
  }

  /** `["above", "below"].includes(condition)`, and which one it is. */
  function ParseCondition(s: string): (c: Option<Condition>)
    ensures c.Some? <==> s == "above" || s == "below"
    ensures c.Some? ==> ConditionName(c.value) == s
  {
    if s == "above" then Some(Above) else if s == "below" then Some(Below) else None
  }

  /** The enum round-trips through its stored string. */
  lemma ConditionRoundTrip(c: Condition)
    ensures ParseCondition(ConditionName(c)) == Some(c)
  {
  }

  /** Distinct `_id`s, as the collection guarantees. */
  ghost predicate UniqueIds(alerts: seq<Alert>) {
    forall i, j :: 0 <= i < j < |alerts| ==> alerts[i].id != alerts[j].id
  }

  // ---------------------------------------------------------------- create

  /** The body of `POST /alerts`; a missing field is `None`. */
  datatype CreateRequest = CreateRequest(
    symbol: Option<string>,
    name: Option<string>,
    targetPrice: Option<real>,
    condition: Option<string>)

  const AllFieldsRequired := ApiError(400, "All fields are required")
  const BadCondition := ApiError(400, "Condition must be \"above\" or \"below\"")
  const TargetNotPositive := ApiError(400, "Target price must be positive")
  const AlertNotFound := ApiError(404, "Alert not found")
  const UpdateFailed := ApiError(500, "Failed to update alert")

  predicate CreateFieldsPresent(req: CreateRequest) {
    TruthyStr(req.symbol) && TruthyStr(req.name) && TruthyNum(req.targetPrice) && TruthyStr(req.condition)
  }

  /** The alert that `POST /alerts` stores, or the rejection. The checks run
      in the route's order: presence (a target price of 0 is falsy, so it is
      reported as a missing field), the condition enum, then the sign of the
      target price. A stored alert belongs to the caller, is active, is not
      triggered and was created now. */
  function NewAlert(id: nat, user: UserId, req: CreateRequest, now: int): (r: Result<Alert>)
    ensures r.Ok? <==>
      CreateFieldsPresent(req) && ParseCondition(req.condition.value).Some? && req.targetPrice.value > 0.0
    ensures r.Ok? ==>
      && r.value.id == id && r.value.userId == user && r.value.createdAt == now
      && r.value.symbol == req.symbol.value && r.value.name == req.name.value
      && r.value.targetPrice == req.targetPrice.value && r.value.targetPrice > 0.0
      && ConditionName(r.value.condition) == req.condition.value
      && r.value.isActive && !r.value.triggered
    ensures r.Err? ==> r.error.status == 400
  {
    if !CreateFieldsPresent(req) then Err(AllFieldsRequired)
    else
      match ParseCondition(req.condition.value)
      case None => Err(BadCondition)
      case Some(c) =>
        if req.targetPrice.value <= 0.0 then Err(TargetNotPositive)
        else Ok(Alert(id, user, req.symbol.value, req.name.value, req.targetPrice.value, c, true, false, now))
  }

  /** Which rejection a create gets: a missing or falsy field first, a
      condition outside the enum next, and "Target price must be positive"
      only for a negative target, since zero already counts as missing. */
  lemma CreateRejections(id: nat, user: UserId, req: CreateRequest, now: int)
    ensures !CreateFieldsPresent(req) ==> NewAlert(id, user, req, now) == Err(AllFieldsRequired)
    ensures req.targetPrice == Some(0.0) ==> NewAlert(id, user, req, now) == Err(AllFieldsRequired)
    ensures CreateFieldsPresent(req) && req.condition.value != "above" && req.condition.value != "below" ==>
      NewAlert(id, user, req, now) == Err(BadCondition)
    ensures NewAlert(id, user, req, now) == Err(TargetNotPositive) <==>
      CreateFieldsPresent(req) && ParseCondition(req.condition.value).Some? && req.targetPrice.value < 0.0
  {
  }

  // ----------------------------------------------------------------- patch

  /** `Alert.findOne({ _id: id, userId: user })`: owner-scoped lookup. */
  function FindAlert(alerts: seq<Alert>, user: UserId, id: nat): (r: Option<nat>)
    ensures r.Some? ==> r.value < |alerts| && alerts[r.value].id == id && alerts[r.value].userId == user
    ensures r.Some? ==> forall j :: 0 <= j < r.value ==> !(alerts[j].id == id && alerts[j].userId == user)
    ensures r.None? <==> forall j :: 0 <= j < |alerts| ==> !(alerts[j].id == id && alerts[j].userId == user)
  {
    if |alerts| == 0 then None
    else if alerts[0].id == id && alerts[0].userId == user then Some(0)
    else
      match FindAlert(alerts[1..], user, id)
      case None => None
      case Some(k) => Some(k + 1)
  }

  /** The body of `PATCH /alerts/:id`. `isActive` is `None` when absent;
      `triggered` is whatever JSON value arrived (`Undefined` when absent). */
  datatype PatchRequest = PatchRequest(isActive: Option<bool>, triggered: Value)

  /** `triggered === true || triggered === "true"`. */
  function CoerceTriggered(v: Value): (b: bool)
    ensures b <==> v == Bool(true) || v == Str("true")
  {
    match v
    case Bool(x) => x
    case Str(s) => s == "true"
    case _ => false
  }

  /** The alert after the PATCH assignments: `isActive` is written only when
      given, `triggered` only when present, and then as its coerced boolean;
      no other field changes. */
  function ApplyPatch(a: Alert, p: PatchRequest): (r: Alert)
    ensures r.isActive == if p.isActive.Some? then p.isActive.value else a.isActive
    ensures r.triggered == if p.triggered.Undefined? then a.triggered else CoerceTriggered(p.triggered)
    ensures r.(isActive := a.isActive, triggered := a.triggered) == a
  {
    var a1 := if p.isActive.Some? then a.(isActive := p.isActive.value) else a;
    if p.triggered.Undefined? then a1 else a1.(triggered := CoerceTriggered(p.triggered))
  }

  /** What a PATCH does: the response, the collection afterwards, and the
      `alert_triggered` broadcast, if any. */
  datatype PatchEffect = PatchEffect(response: Result<Alert>, alerts: seq<Alert>, broadcast: Option<Alert>)

  /** The PATCH handler as intended: a 404 without an owned alert, otherwise
      the patched alert is saved and returned, and broadcast exactly when the
      coerced `triggered` is true. */
  function Patch(alerts: seq<Alert>, user: UserId, id: nat, p: PatchRequest): (e: PatchEffect)
    ensures e.response.Err? <==> FindAlert(alerts, user, id).None?
    ensures e.response.Err? ==> e == PatchEffect(Err(AlertNotFound), alerts, None)
    ensures e.response.Ok? ==>
      && |e.alerts| == |alerts|
      && e.response.value.id == id && e.response.value.userId == user
      && e.alerts[FindAlert(alerts, user, id).value] == e.response.value
    ensures e.broadcast.Some? ==> e.response == Ok(e.broadcast.value)
  {
    match FindAlert(alerts, user, id)
    case None => PatchEffect(Err(AlertNotFound), alerts, None)
    case Some(i) =>
      var a := ApplyPatch(alerts[i], p);
      PatchEffect(Ok(a), alerts[i := a], if CoerceTriggered(p.triggered) then Some(a) else None)
  }

  /** The PATCH handler as written: `broadcastAlertTriggered` is imported from
      a module that does not export it, so the call throws after the save.
      The alert is saved, but no broadcast goes out and the caller gets 500
      "Failed to update alert". */
  function PatchAsWritten(alerts: seq<Alert>, user: UserId, id: nat, p: PatchRequest): (e: PatchEffect)
    ensures e.broadcast.None? && |e.alerts| == |alerts|
    ensures FindAlert(alerts, user, id).None? ==> e.response == Err(AlertNotFound) && e.alerts == alerts
    ensures FindAlert(alerts, user, id).Some? && CoerceTriggered(p.triggered) ==> e.response == Err(UpdateFailed)
    ensures e.response.Ok? ==> !CoerceTriggered(p.triggered)
  {
    match FindAlert(alerts, user, id)
    case None => PatchEffect(Err(AlertNotFound), alerts, None)
    case Some(i) =>
      var a := ApplyPatch(alerts[i], p);
      PatchEffect(if CoerceTriggered(p.triggered) then Err(UpdateFailed) else Ok(a), alerts[i := a], None)
  }

  /** A PATCH of an alert the caller does not own, or that does not exist,
      is a 404 and changes nothing, even when another user owns that id. */
  lemma {:induction false} PatchNotOwned(alerts: seq<Alert>, user: UserId, id: nat, p: PatchRequest)
    requires forall j :: 0 <= j < |alerts| && alerts[j].id == id ==> alerts[j].userId != user
    ensures Patch(alerts, user, id, p) == PatchEffect(Err(AlertNotFound), alerts, None)
  {
    assert FindAlert(alerts, user, id).None?;
  }

  /** An accepted PATCH rewrites only the caller's alert with that id: every
      other alert, the order and the ids are kept. */
  lemma {:induction false} PatchTouchesOnlyTarget(alerts: seq<Alert>, user: UserId, id: nat, p: PatchRequest)
    requires UniqueIds(alerts)
    ensures var e := Patch(alerts, user, id, p);
      && |e.alerts| == |alerts| && UniqueIds(e.alerts)
      && forall j :: 0 <= j < |alerts| ==>
           e.alerts[j].id == alerts[j].id &&
           (alerts[j].id != id ==> e.alerts[j] == alerts[j]) &&
           (alerts[j].id == id && alerts[j].userId == user ==> e.alerts[j] == ApplyPatch(alerts[j], p))
  {
    match FindAlert(alerts, user, id)
    case None =>
    case Some(i) =>
      forall j | 0 <= j < |alerts| && alerts[j].id == id && alerts[j].userId == user
        ensures j == i
      {
      }
  }

  /** The broadcast fires exactly when the alert exists for the caller and
      the coerced `triggered` is true, whatever the alert's previous state;
      what is broadcast is the saved alert. */
  lemma {:induction false} BroadcastIffTriggered(alerts: seq<Alert>, user: UserId, id: nat, p: PatchRequest)
    ensures var e := Patch(alerts, user, id, p);
      && (e.broadcast.Some? <==>
            FindAlert(alerts, user, id).Some? && (p.triggered == Bool(true) || p.triggered == Str("true")))
      && (e.broadcast.Some? ==> e.response == Ok(e.broadcast.value) && e.broadcast.value.triggered)
  {
  }

  /** The defect: a PATCH that marks an alert triggered is saved but answered
      with 500 and never broadcast, which is exactly the PATCH that should
      broadcast; every other PATCH behaves as intended. */
  lemma {:induction false} PatchAsWrittenDiffers(alerts: seq<Alert>, user: UserId, id: nat, p: PatchRequest)
    ensures var w := PatchAsWritten(alerts, user, id, p);
      var e := Patch(alerts, user, id, p);
      && w.alerts == e.alerts && w.broadcast.None?
      && (e.broadcast.Some? ==> w.response == Err(UpdateFailed))
      && (e.broadcast.None? ==> w == e)
  {
  }

  /** A concrete case: the client reports a triggered alert. */
  lemma TriggeredPatchFailsAsWritten()
    ensures var a := Alert(7, 1, "AAPL", "Apple Inc.", 180.0, Above, true, false, 0);
      var p := PatchRequest(None, Bool(true));
      && PatchAsWritten([a], 1, 7, p) == PatchEffect(Err(UpdateFailed), [a.(triggered := true)], None)
      && Patch([a], 1, 7, p) == PatchEffect(Ok(a.(triggered := true)), [a.(triggered := true)], Some(a.(triggered := true)))
  {
    var a := Alert(7, 1, "AAPL", "Apple Inc.", 180.0, Above, true, false, 0);
    assert FindAlert([a], 1, 7) == Some(0);
  }

  // ---------------------------------------------------------------- delete

  /** `Alert.deleteOne({ _id: id, userId: user })`: the collection afterwards
      and whether something was deleted (`deletedCount`). */
  function Delete(alerts: seq<Alert>, user: UserId, id: nat): (r: (seq<Alert>, bool))
    ensures r.1 <==> FindAlert(alerts, user, id).Some?
    ensures !r.1 ==> r.0 == alerts
    ensures r.1 ==> |r.0| == |alerts| - 1
  {
    match FindAlert(alerts, user, id)
    case None => (alerts, false)
    case Some(i) => (RemoveAt(alerts, i), true)
  }

  /** A delete removes the caller's alert with that id and nothing else; it
      reports nothing deleted (404) exactly when the caller owns no such
      alert, and then changes nothing. */
  lemma {:induction false} DeleteRemovesOnlyTarget(alerts: seq<Alert>, user: UserId, id: nat)
    requires UniqueIds(alerts)
    ensures var (rest, deleted) := Delete(alerts, user, id);
      && (deleted <==> exists j :: 0 <= j < |alerts| && alerts[j].id == id && alerts[j].userId == user)
      && (!deleted ==> rest == alerts)
      && UniqueIds(rest)
      && forall a :: a in rest <==> a in alerts && !(a.id == id && a.userId == user)
  {
    match FindAlert(alerts, user, id)
    case None =>
    case Some(i) =>
      forall a {
        RemoveAtElements(alerts, i, a);
      }
  }

  // ------------------------------------------------------- count and list

  /** The filter of the count: the user's alert, active and not triggered. */
  predicate Counted(a: Alert, user: UserId) {
    a.userId == user && a.isActive && !a.triggered
  }

  /** `countDocuments({ userId, isActive: true, triggered: false })`. */
  function ActiveCount(alerts: seq<Alert>, user: UserId): (n: nat)
    ensures n <= |alerts|
  {
    if alerts == [] then 0
    else
      ActiveCount(alerts[..|alerts| - 1], user) + (if Counted(alerts[|alerts| - 1], user) then 1 else 0)
  }

  /** The count is exact: it is the number of positions of the collection
      that hold an alert of the user that is active and not triggered. */
  lemma {:induction false} ActiveCountExact(alerts: seq<Alert>, user: UserId)
    ensures ActiveCount(alerts, user) == |set j | 0 <= j < |alerts| && Counted(alerts[j], user)|
  {
    if alerts != [] {
      var n := |alerts| - 1;
      var init := alerts[..n];
      ActiveCountExact(init, user);
      var before := set j | 0 <= j < n && Counted(init[j], user);
      var after := set j | 0 <= j < |alerts| && Counted(alerts[j], user);
      assert before == set j | 0 <= j < n && Counted(alerts[j], user);
      if Counted(alerts[n], user) {
        assert after == before + {n};
      } else {
        assert after == before;
      }
    }
  }

  /** A created alert is active and untriggered, so it adds one to its
      owner's count and leaves every other user's count alone. */
  lemma {:induction false} CreateIncrementsCount(alerts: seq<Alert>, a: Alert, user: UserId)
    requires a.isActive && !a.triggered
    ensures ActiveCount(alerts + [a], user) == ActiveCount(alerts, user) + (if a.userId == user then 1 else 0)
  {
    assert (alerts + [a])[..|alerts|] == alerts;
  }

  /** The count is zero for a user with no alerts, and it never exceeds the
      number of alerts the user owns. */
  lemma {:induction false} CountWithinOwn(alerts: seq<Alert>, user: UserId)
    ensures ActiveCount(alerts, user) <= |UserAlerts(alerts, user)|
    ensures (forall j :: 0 <= j < |alerts| ==> alerts[j].userId != user) ==> ActiveCount(alerts, user) == 0
  {
    if alerts != [] {
      var init, last := alerts[..|alerts| - 1], alerts[|alerts| - 1];
      assert init + [last] == alerts;
      CountWithinOwn(init, user);
      if forall j :: 0 <= j < |alerts| ==> alerts[j].userId != user {
        assert forall j :: 0 <= j < |init| ==> init[j] == alerts[j];
      }
    }
  }

  /** `Alert.find({ userId })`, in collection order. */
  function UserAlerts(alerts: seq<Alert>, user: UserId): (r: seq<Alert>)
    ensures |r| <= |alerts|
    ensures forall a :: a in r <==> a in alerts && a.userId == user
  {
    if alerts == [] then []
    else
      var last := alerts[|alerts| - 1];
      assert alerts == alerts[..|alerts| - 1] + [last];
      UserAlerts(alerts[..|alerts| - 1], user) + (if last.userId == user then [last] else [])
  }

  lemma {:induction false} UserAlertsSnoc(alerts: seq<Alert>, a: Alert, user: UserId)
    ensures UserAlerts(alerts + [a], user) == UserAlerts(alerts, user) + (if a.userId == user then [a] else [])
  {
    assert (alerts + [a])[..|alerts|] == alerts;
  }

  function CreatedAt(a: Alert): real {
    a.createdAt as real
  }

  /** `GET /alerts`: the caller's alerts, newest first; exactly the caller's
      alerts, each once. */
  function ListAlerts(alerts: seq<Alert>, user: UserId): (r: seq<Alert>)
    ensures SortedDesc(r, CreatedAt)
    ensures multiset(r) == multiset(UserAlerts(alerts, user))
    ensures forall a :: a in r <==> a in alerts && a.userId == user
  {
    var r := SortDesc(UserAlerts(alerts, user), CreatedAt);
    assert forall a :: a in r <==> a in multiset(r);
    r
  }

  // ------------------------------------------------------------- the store

  class AlertStore {
    /** The `Alert` collection, in insertion order. */
    var alerts: seq<Alert>
    /** The next `_id` to issue. */
    var nextId: nat

    ghost predicate Valid()
      reads this
    {
      UniqueIds(alerts) && forall j :: 0 <= j < |alerts| ==> alerts[j].id < nextId
    }

    constructor ()
      ensures Valid() && alerts == [] && nextId == 0
    {
      alerts := [];
      nextId := 0;
    }

    /** `POST /alerts`: the validated alert is appended (201) or the store
        is left unchanged. */
    method Create(user: UserId, req: CreateRequest, now: int) returns (r: Result<Alert>)
      requires Valid()
      modifies this
      ensures Valid()
      ensures r == NewAlert(old(nextId), user, req, now)
      ensures alerts == if r.Ok? then old(alerts) + [r.value] else old(alerts)
      ensures nextId == if r.Ok? then old(nextId) + 1 else old(nextId)
    {
      if !CreateFieldsPresent(req) {
        return Err(AllFieldsRequired);
      }
      var condition := ParseCondition(req.condition.value);
      if condition.None? {
        return Err(BadCondition);
      }
      if req.targetPrice.value <= 0.0 {
        return Err(TargetNotPositive);
      }
      var alert := Alert(nextId, user, req.symbol.value, req.name.value, req.targetPrice.value,
                         condition.value, true, false, now);
      alerts := alerts + [alert];
      nextId := nextId + 1;
      r := Ok(alert);
    }

    /** `PATCH /alerts/:id`, with the broadcast it sends. */
    method Update(user: UserId, id: nat, p: PatchRequest) returns (r: Result<Alert>, broadcast: Option<Alert>)
      requires Valid()
      modifies this
      ensures Valid() && nextId == old(nextId)
      ensures var e := Patch(old(alerts), user, id, p);
        r == e.response && alerts == e.alerts && broadcast == e.broadcast
    {
      var found := FindAlert(alerts, user, id);
      if found.None? {
        return Err(AlertNotFound), None;
      }
      var i := found.value;
      var alert := alerts[i];
      var triggeredBool := CoerceTriggered(p.triggered);
      if p.isActive.Some? {
        alert := alert.(isActive := p.isActive.value);
      }
      if !p.triggered.Undefined? {
        alert := alert.(triggered := triggeredBool);
      }
      alerts := alerts[i := alert];
      broadcast := if triggeredBool then Some(alert) else None;
      r := Ok(alert);
    }

    /** `DELETE /alerts/:id`. */
    method Remove(user: UserId, id: nat) returns (r: Result<string>)
      requires Valid()
      modifies this
      ensures Valid() && nextId == old(nextId)
      ensures var (rest, deleted) := Delete(old(alerts), user, id);
        alerts == rest && r == if deleted then Ok("Alert deleted") else Err(AlertNotFound)
    {
      var found := FindAlert(alerts, user, id);
      if found.None? {
        return Err(AlertNotFound);
      }
      DeleteRemovesOnlyTarget(alerts, user, id);
      alerts := RemoveAt(alerts, found.value);
      r := Ok("Alert deleted");
    }
  }
}
