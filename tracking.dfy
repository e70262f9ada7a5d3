/**
 * The page's live-tracking state (app.js): `driverLocationMaps`, order id to
 * the map shown for it, and `locationUpdateIntervals`, order id to the timer
 * that refreshes it every 30 seconds. Leaflet maps and timers are handles
 * drawn from one counter; `removed` records the maps taken off the page and
 * `active` the timers still scheduled.
 */
module Tracking {
  import opened Js
  import opened Client

  /** `{ map, driverMarker, driverData }` as stored for one order: the map is
      its handle (the marker moves with it and is not modelled), and
      `driverData` is reassigned in place by `updateDriverMarker`. */
  class MapData {
    const view: nat
    var driverData: Json

    constructor (view: nat, driverData: Json)
      ensures this.view == view && this.driverData == driverData
    {
      this.view := view;
      this.driverData := driverData;
    }

    /** `updateDriverMarker`: the marker is moved and its popup rewritten
        (neither modelled) and the stored driver data replaced; a coordinate
        that is not a number makes `setLatLng` throw first, and a popup
        field that cannot be converted makes `setPopupContent` throw first;
        either way the stored data stays. */
    method UpdateDriverMarker(newDriverData: Json)
      modifies this
      ensures Drawable(newDriverData) ==> driverData == newDriverData
      ensures !Drawable(newDriverData) ==> unchanged(this)
    {
      if !Drawable(newDriverData) {
        return;
      }
      driverData := newDriverData;
    }
  }

  /** `parseFloat(v)` is a number, so that Leaflet accepts it as a
      coordinate (`L.latLng` throws on NaN). A JSON number prints as a
      numeral; `null`, booleans and objects print as words; an array prints
      as its elements joined by commas, so it parses by its first element
      (ParsesBeforeComma), and an empty array or a null first element leaves
      nothing or a comma in front; converting an array throws when one of
      its elements does (Stringable). */
  predicate NumericCoordinate(v: Json)
    decreases v
  {
    match v
    case JNum(_) => true
    case JStr(s) => ParsesAsNumber(s)
    case JArr(items) => Stringable(v) && |items| > 0 && items[0] != JNull && NumericCoordinate(items[0])
    case _ => false
  }

  /** Both coordinates of `driverData` go through `parseFloat` to numbers:
      the condition under which `L.marker([lat, lng])` and `setLatLng` do
      not throw. */
  predicate Plottable(driverData: Json) {
    var lat := Property(driverData, "current_latitude");
    var lng := Property(driverData, "current_longitude");
    lat.Some? && lng.Some? && NumericCoordinate(lat.value) && NumericCoordinate(lng.value)
  }

  /** The popup text converts: `${driverData.driver_name || '配送司机'}`, and
      `formatDateTime(driverData.last_location_update)`, which gives '未知'
      for a falsy time and otherwise goes through `new Date`; when that
      throws its `catch` hands back the value itself, which the template
      then fails to convert as well. */
  predicate PopupShows(driverData: Json) {
    var time := Property(driverData, "last_location_update");
    && Stringable(Or(Property(driverData, "driver_name"), JStr("配送司机")))
    && (!Truthy(time) || Stringable(time.value))
  }

  /** `L.marker` (or `setLatLng`) and the popup's template both return:
      the coordinates parse and the popup converts. `updateLocationTime`
      converts the same time and so throws only where the popup already
      has. */
  predicate Drawable(driverData: Json) {
    Plottable(driverData) && PopupShows(driverData)
  }

  /** `data.current_latitude && data.current_longitude` on the parsed reply of
      the driver-location route: false when the request or the parse threw,
      and when the body is null (the read throws and is caught). */
  predicate HasCoordinates(reply: Read<Json>) {
    reply.Got? && reply.value != JNull
    && Truthy(Property(reply.value, "current_latitude"))
    && Truthy(Property(reply.value, "current_longitude"))
  }

  /** `order.order_id`. */
  function OrderId(order: Json): Value {
    Property(order, "order_id")
  }

  /** A reply whose coordinates are truthy and whose map is drawn without
      throwing: the one `loadDriverLocation` stores a map for. */
  predicate Locatable(reply: Read<Json>) {
    HasCoordinates(reply) && Drawable(reply.value)
  }

  /** `loadDriverLocation` reaches `setInterval`: the reply has truthy
      coordinates, and either there is no container (so `displayDriverMap`
      returns at once, and the time element, rendered with it, is missing
      too) or the map is drawn. */
  predicate Registers(reply: Read<Json>, containerPresent: bool) {
    HasCoordinates(reply) && (!containerPresent || Drawable(reply.value))
  }

  /** Numeric coordinates with a time that cannot be converted: the popup
      throws with the container on the page, so nothing is registered;
      without it the timer is registered. */
  lemma UnconvertibleTimeNotShown(time: map<string, Json>)
    requires "toString" in time
    ensures var reply := Got(JObj(map["current_latitude" := JNum(1.0), "current_longitude" := JNum(1.0),
                                      "last_location_update" := JObj(time)]));
      HasCoordinates(reply) && Plottable(reply.value) && !Locatable(reply)
      && !Registers(reply, true) && Registers(reply, false)
  {
  }

  /** Truthy coordinates that are not numbers, such as "n/a": with the
      container on the page the map throws and nothing is registered;
      without it the timer is still registered. */
  lemma TextCoordinatesNotShown(place: string)
    requires place != "" && !ParsesAsNumber(place)
    ensures var reply := Got(JObj(map["current_latitude" := JStr(place), "current_longitude" := JStr(place)]));
      HasCoordinates(reply) && !Locatable(reply) && !Registers(reply, true) && Registers(reply, false)
  {
  }

  /** The order ids `displayOrders` gets a stored interval for: eligible
      orders whose location reply had coordinates Leaflet accepts. */
  function Tracked(orders: seq<Json>, replies: seq<Read<Json>>): set<Value>
    requires |orders| == |replies|
    decreases |orders|
  {
    if orders == [] then {}
    else
      var n := |orders| - 1;
      Tracked(orders[..n], replies[..n])
      + (if LiveTrackingEligible(orders[n]) && Locatable(replies[n]) then {OrderId(orders[n])} else {})
  }

  /** The tracked ids are exactly those of the eligible orders whose reply
      had coordinates Leaflet accepts. */
  lemma {:induction false} TrackedMeaning(orders: seq<Json>, replies: seq<Read<Json>>)
    requires |orders| == |replies|
    ensures forall i :: 0 <= i < |orders| && LiveTrackingEligible(orders[i]) && Locatable(replies[i]) ==>
      OrderId(orders[i]) in Tracked(orders, replies)
    ensures forall id :: id in Tracked(orders, replies) ==>
      exists i :: 0 <= i < |orders| && LiveTrackingEligible(orders[i]) && Locatable(replies[i]) && OrderId(orders[i]) == id
    decreases |orders|
  {
    if orders != [] {
      var n := |orders| - 1;
      TrackedMeaning(orders[..n], replies[..n]);
      forall id | id in Tracked(orders, replies)
        ensures exists i :: 0 <= i < |orders| && LiveTrackingEligible(orders[i]) && Locatable(replies[i]) && OrderId(orders[i]) == id
      {
        if id in Tracked(orders[..n], replies[..n]) {
          var i :| 0 <= i < n && LiveTrackingEligible(orders[..n][i]) && Locatable(replies[..n][i]) && OrderId(orders[..n][i]) == id;
          assert orders[..n][i] == orders[i] && replies[..n][i] == replies[i];
        }
      }
      forall i | 0 <= i < |orders| && LiveTrackingEligible(orders[i]) && Locatable(replies[i])
        ensures OrderId(orders[i]) in Tracked(orders, replies)
      {
        if i < n {
          assert orders[..n][i] == orders[i] && replies[..n][i] == replies[i];
        }
      }
    }
  }

  /** One more order adds its id exactly when it is tracked. */
  lemma TrackedStep(orders: seq<Json>, replies: seq<Read<Json>>, i: nat)
    requires |orders| == |replies| && i < |orders|
    ensures Tracked(orders[..i + 1], replies[..i + 1]) == Tracked(orders[..i], replies[..i])
      + (if LiveTrackingEligible(orders[i]) && Locatable(replies[i]) then {OrderId(orders[i])} else {})
  {
    assert orders[..i + 1][..i] == orders[..i] && replies[..i + 1][..i] == replies[..i];
  }

  /** The reply of the last tracked order with id `id`: `displayOrders`
      loads the orders in turn, so that order's map and timer are the ones
      left stored. */
  function LastTrackedReply(orders: seq<Json>, replies: seq<Read<Json>>, id: Value): Json
    requires |orders| == |replies| && id in Tracked(orders, replies)
    decreases |orders|
  {
    var n := |orders| - 1;
    if LiveTrackingEligible(orders[n]) && Locatable(replies[n]) && OrderId(orders[n]) == id then replies[n].value
    else LastTrackedReply(orders[..n], replies[..n], id)
  }

  /** One more order either becomes the last tracked one for its id or
      leaves every id's last reply as it was. */
  lemma LastTrackedStep(orders: seq<Json>, replies: seq<Read<Json>>, i: nat, id: Value)
    requires |orders| == |replies| && i < |orders|
    requires id in Tracked(orders[..i + 1], replies[..i + 1])
    ensures LiveTrackingEligible(orders[i]) && Locatable(replies[i]) && OrderId(orders[i]) == id ==>
      LastTrackedReply(orders[..i + 1], replies[..i + 1], id) == replies[i].value
    ensures !(LiveTrackingEligible(orders[i]) && Locatable(replies[i]) && OrderId(orders[i]) == id) ==>
      id in Tracked(orders[..i], replies[..i])
      && LastTrackedReply(orders[..i + 1], replies[..i + 1], id) == LastTrackedReply(orders[..i], replies[..i], id)
  {
    var os, rs := orders[..i + 1], replies[..i + 1];
    assert os[..i] == orders[..i] && rs[..i] == replies[..i];
    assert os[i] == orders[i] && rs[i] == replies[i];
    var t := LiveTrackingEligible(orders[i]) && Locatable(replies[i]);
    assert Tracked(os, rs) == Tracked(orders[..i], replies[..i]) + (if t then {OrderId(orders[i])} else {});
  }

  class TrackingState {
    var driverLocationMaps: map<Value, MapData>
    var locationUpdateIntervals: map<Value, nat>
    var active: set<nat>
    var removed: set<nat>
    var nextHandle: nat

    /** Every stored interval is still scheduled, no stored map has been
        removed, and every handle in use was drawn from the counter. */
    predicate Valid()
      reads this
    {
      && (forall k :: k in locationUpdateIntervals ==> locationUpdateIntervals[k] in active)
      && (forall t :: t in active ==> t < nextHandle)
      && (forall k :: k in driverLocationMaps ==> driverLocationMaps[k].view < nextHandle && driverLocationMaps[k].view !in removed)
      && (forall v :: v in removed ==> v < nextHandle)
    }

    /** The page as loaded: both Maps empty, nothing scheduled. */
    constructor ()
      ensures Valid()
      ensures driverLocationMaps == map[] && locationUpdateIntervals == map[]
      ensures active == {} && removed == {}
    {
      driverLocationMaps := map[];
      locationUpdateIntervals := map[];
      active := {};
      removed := {};
      nextHandle := 1;
    }

    /** `displayDriverMap`: without its container on the page nothing happens;
        with it, a coordinate that is not a number makes `L.marker` throw,
        and a popup field that cannot be converted makes the popup template
        throw (`threw`), before anything is stored; otherwise a new map is
        created and stored for the order, replacing any entry it had. */
    method DisplayDriverMap(orderId: Value, driverData: Json, containerPresent: bool) returns (threw: bool)
      requires Valid()
      modifies this
      ensures Valid()
      ensures threw <==> containerPresent && !Drawable(driverData)
      ensures locationUpdateIntervals == old(locationUpdateIntervals) && active == old(active) && removed == old(removed)
      ensures !containerPresent || threw ==> driverLocationMaps == old(driverLocationMaps) && nextHandle == old(nextHandle)
      ensures containerPresent && !threw ==>
        && orderId in driverLocationMaps
        && fresh(driverLocationMaps[orderId])
        && driverLocationMaps[orderId].driverData == driverData
        && driverLocationMaps[orderId].view == old(nextHandle)
        && driverLocationMaps == old(driverLocationMaps)[orderId := driverLocationMaps[orderId]]
      ensures nextHandle >= old(nextHandle)
    {
      threw := containerPresent && !Drawable(driverData);
      if !containerPresent || threw {
        return;
      }
      var mapData := new MapData(nextHandle, driverData);
      driverLocationMaps := driverLocationMaps[orderId := mapData];
      nextHandle := nextHandle + 1;
    }

    /** `loadDriverLocation` once its request has settled with `reply`: a
        reply with both coordinates registers a refresh timer for the order,
        and shows the map when the container is there, unless the map throws
        on a coordinate that is not a number; the `catch` then leaves
        everything as it was. A timer already stored for the order is
        overwritten and stays scheduled. */
    method LoadDriverLocation(orderId: Value, reply: Read<Json>, containerPresent: bool)
      requires Valid()
      modifies this
      ensures Valid()
      ensures removed == old(removed)
      ensures !Registers(reply, containerPresent) ==>
        && driverLocationMaps == old(driverLocationMaps) && locationUpdateIntervals == old(locationUpdateIntervals)
        && active == old(active) && nextHandle == old(nextHandle)
      ensures Registers(reply, containerPresent) ==>
        && orderId in locationUpdateIntervals
        && locationUpdateIntervals[orderId] >= old(nextHandle)
        && locationUpdateIntervals[orderId] !in old(active)
        && locationUpdateIntervals == old(locationUpdateIntervals)[orderId := locationUpdateIntervals[orderId]]
        && active == old(active) + {locationUpdateIntervals[orderId]}
      ensures Locatable(reply) && containerPresent ==>
        && orderId in driverLocationMaps
        && fresh(driverLocationMaps[orderId])
        && driverLocationMaps[orderId].driverData == reply.value
        && driverLocationMaps[orderId].view >= old(nextHandle)
        && driverLocationMaps == old(driverLocationMaps)[orderId := driverLocationMaps[orderId]]
      ensures !(Locatable(reply) && containerPresent) ==> driverLocationMaps == old(driverLocationMaps)
      ensures nextHandle >= old(nextHandle)
      ensures locationUpdateIntervals.Keys == old(locationUpdateIntervals).Keys + (if Registers(reply, containerPresent) then {orderId} else {})
      ensures driverLocationMaps.Keys == old(driverLocationMaps).Keys + (if Locatable(reply) && containerPresent then {orderId} else {})
    {
      if !HasCoordinates(reply) {
        return;
      }
      var threw := DisplayDriverMap(orderId, reply.value, containerPresent);
      if threw {
        return;
      }
      var intervalId := nextHandle;
      nextHandle := nextHandle + 1;
      active := active + {intervalId};
      locationUpdateIntervals := locationUpdateIntervals[orderId := intervalId];
    }

    /** `updateDriverLocation` once its request has settled with `reply`:
        with a reply Leaflet draws (Drawable) and a map stored for the order,
        that map's driver data becomes the reply; nothing else changes (a
        truthy coordinate that is not a number throws in `setLatLng`, a popup
        field that cannot be converted in `setPopupContent`). */
    method UpdateDriverLocation(orderId: Value, reply: Read<Json>)
      modifies if orderId in driverLocationMaps then {driverLocationMaps[orderId]} else {}
      ensures orderId in driverLocationMaps && Locatable(reply) ==>
        driverLocationMaps[orderId].driverData == reply.value
      ensures !(orderId in driverLocationMaps && Locatable(reply)) ==>
        forall k :: k in driverLocationMaps ==> unchanged(driverLocationMaps[k])
    {
      if HasCoordinates(reply) && orderId in driverLocationMaps {
        driverLocationMaps[orderId].UpdateDriverMarker(reply.value);
      }
    }

    /** `cleanupMapsAndIntervals`: every stored map is removed from the page,
        every stored timer cleared, and both Maps emptied. */
    method CleanupMapsAndIntervals()
      requires Valid()
      modifies this
      ensures Valid()
      ensures driverLocationMaps == map[] && locationUpdateIntervals == map[]
      ensures removed == old(removed) + Views(old(driverLocationMaps), old(driverLocationMaps).Keys)
      ensures active == old(active) - old(locationUpdateIntervals).Values
      ensures nextHandle == old(nextHandle)
    {
      var pending := driverLocationMaps.Keys;
      while pending != {}
        invariant pending <= driverLocationMaps.Keys
        invariant driverLocationMaps == old(driverLocationMaps) && nextHandle == old(nextHandle)
        invariant locationUpdateIntervals == old(locationUpdateIntervals) && active == old(active)
        invariant removed == old(removed) + Views(driverLocationMaps, driverLocationMaps.Keys - pending)
        invariant forall v :: v in removed ==> v < nextHandle
        decreases pending
      {
        var orderId :| orderId in pending;
        ViewsGrow(driverLocationMaps, driverLocationMaps.Keys - pending, orderId);
        assert driverLocationMaps.Keys - (pending - {orderId}) == driverLocationMaps.Keys - pending + {orderId};
        removed := removed + {driverLocationMaps[orderId].view};
        pending := pending - {orderId};
      }
      driverLocationMaps := map[];

      var timers := locationUpdateIntervals.Keys;
      while timers != {}
        invariant timers <= locationUpdateIntervals.Keys
        invariant locationUpdateIntervals == old(locationUpdateIntervals) && nextHandle == old(nextHandle)
        invariant driverLocationMaps == map[] && removed == old(removed) + Views(old(driverLocationMaps), old(driverLocationMaps).Keys)
        invariant forall v :: v in removed ==> v < nextHandle
        invariant active == old(active) - Timers(locationUpdateIntervals, locationUpdateIntervals.Keys - timers)
        decreases timers
      {
        var orderId :| orderId in timers;
        TimersGrow(locationUpdateIntervals, locationUpdateIntervals.Keys - timers, orderId);
        assert locationUpdateIntervals.Keys - (timers - {orderId}) == locationUpdateIntervals.Keys - timers + {orderId};
        active := active - {locationUpdateIntervals[orderId]};
        timers := timers - {orderId};
      }
      assert Timers(locationUpdateIntervals, locationUpdateIntervals.Keys) == locationUpdateIntervals.Values;
      locationUpdateIntervals := map[];
    }

    /** The state after the first `i` orders of a `displayOrders` call that
        began with the Maps `maps0` and `intervals0` and the handle counter at
        `handle0`: every tracked id holds a map and a timer drawn during the
        call, the map showing the reply of the last tracked order with that
        id; every other entry is as it was. */
    predicate TracksPrefix(orders: seq<Json>, replies: seq<Read<Json>>, i: nat,
                           maps0: map<Value, MapData>, intervals0: map<Value, nat>, handle0: nat)
      requires |orders| == |replies| && i <= |orders|
      reads this, driverLocationMaps.Values
    {
      var ids := Tracked(orders[..i], replies[..i]);
      && StoredSince(ids, driverLocationMaps, locationUpdateIntervals, maps0, intervals0, handle0)
      && (forall k :: k in ids ==> k in driverLocationMaps
                                   && driverLocationMaps[k].driverData == LastTrackedReply(orders[..i], replies[..i], k))
    }

    /** The loop of `displayOrders` that starts tracking: `loadDriverLocation`
        for exactly the orders the page also gave a map container, each
        settling with its own reply. Afterwards the orders with a timer are
        the tracked ones, added to whatever was stored before; each holds a
        new map showing its last tracked reply and a new scheduled timer, and
        every other entry keeps its map and timer. */
    method DisplayOrders(orders: seq<Json>, replies: seq<Read<Json>>)
      requires Valid()
      requires |orders| == |replies|
      modifies this
      ensures Valid()
      ensures locationUpdateIntervals.Keys == old(locationUpdateIntervals).Keys + Tracked(orders, replies)
      ensures driverLocationMaps.Keys == old(driverLocationMaps).Keys + Tracked(orders, replies)
      ensures forall k :: k in Tracked(orders, replies) ==>
        driverLocationMaps[k].driverData == LastTrackedReply(orders, replies, k)
      ensures forall k :: k in Tracked(orders, replies) ==>
        driverLocationMaps[k].view >= old(nextHandle) && locationUpdateIntervals[k] in active - old(active)
      ensures forall k :: k in old(driverLocationMaps) && k !in Tracked(orders, replies) ==>
        driverLocationMaps[k] == old(driverLocationMaps[k])
      ensures forall k :: k in old(locationUpdateIntervals) && k !in Tracked(orders, replies) ==>
        locationUpdateIntervals[k] == old(locationUpdateIntervals[k])
      ensures old(active) <= active && removed == old(removed)
    {
      ghost var maps0, intervals0, handle0 := driverLocationMaps, locationUpdateIntervals, nextHandle;
      var i := 0;
      while i < |orders|
        invariant 0 <= i <= |orders|
        invariant Valid() && handle0 <= nextHandle
        invariant TracksPrefix(orders, replies, i, maps0, intervals0, handle0)
        invariant old(active) <= active && removed == old(removed)
      {
        TrackOne(orders, replies, i, maps0, intervals0, handle0);
        i := i + 1;
      }
      assert orders[..i] == orders && replies[..i] == replies;
    }

    /** One turn of the `displayOrders` loop: an eligible order loads its
        driver location, and the state then covers one more order. */
    method TrackOne(orders: seq<Json>, replies: seq<Read<Json>>, i: nat,
                    ghost maps0: map<Value, MapData>, ghost intervals0: map<Value, nat>, ghost handle0: nat)
      requires Valid() && handle0 <= nextHandle
      requires |orders| == |replies| && i < |orders|
      requires TracksPrefix(orders, replies, i, maps0, intervals0, handle0)
      modifies this
      ensures Valid() && handle0 <= nextHandle
      ensures TracksPrefix(orders, replies, i + 1, maps0, intervals0, handle0)
      ensures old(active) <= active && removed == old(removed)
    {
      if LiveTrackingEligible(orders[i]) && Locatable(replies[i]) {
        TrackNew(orders, replies, i, maps0, intervals0, handle0);
      } else {
        if LiveTrackingEligible(orders[i]) {
          LoadDriverLocation(OrderId(orders[i]), replies[i], true);
        }
        UntrackedStep(orders, replies, i, maps0, intervals0, handle0);
      }
    }

    /** An order that is not tracked leaves the state covering one more
        order as it is. */
    lemma UntrackedStep(orders: seq<Json>, replies: seq<Read<Json>>, i: nat,
                        maps0: map<Value, MapData>, intervals0: map<Value, nat>, handle0: nat)
      requires |orders| == |replies| && i < |orders|
      requires !(LiveTrackingEligible(orders[i]) && Locatable(replies[i]))
      requires TracksPrefix(orders, replies, i, maps0, intervals0, handle0)
      ensures TracksPrefix(orders, replies, i + 1, maps0, intervals0, handle0)
    {
      TrackedStep(orders, replies, i);
      forall k | k in Tracked(orders[..i + 1], replies[..i + 1])
        ensures driverLocationMaps[k].driverData == LastTrackedReply(orders[..i + 1], replies[..i + 1], k)
      {
        LastTrackedStep(orders, replies, i, k);
      }
    }

    /** A tracked order's load stores its map and timer, and the state then
        covers one more order. */
    method TrackNew(orders: seq<Json>, replies: seq<Read<Json>>, i: nat,
                    ghost maps0: map<Value, MapData>, ghost intervals0: map<Value, nat>, ghost handle0: nat)
      requires Valid() && handle0 <= nextHandle
      requires |orders| == |replies| && i < |orders|
      requires LiveTrackingEligible(orders[i]) && Locatable(replies[i])
      requires TracksPrefix(orders, replies, i, maps0, intervals0, handle0)
      modifies this
      ensures Valid() && handle0 <= nextHandle
      ensures TracksPrefix(orders, replies, i + 1, maps0, intervals0, handle0)
      ensures old(active) <= active && removed == old(removed)
    {
      TrackedStep(orders, replies, i);
      var id := OrderId(orders[i]);
      ghost var maps1, intervals1 := driverLocationMaps, locationUpdateIntervals;
      LoadDriverLocation(id, replies[i], true);
      StoredSinceGrows(Tracked(orders[..i], replies[..i]), maps1, intervals1, maps0, intervals0, handle0,
                       id, driverLocationMaps[id], locationUpdateIntervals[id]);
      forall k | k in Tracked(orders[..i + 1], replies[..i + 1])
        ensures driverLocationMaps[k].driverData == LastTrackedReply(orders[..i + 1], replies[..i + 1], k)
      {
        LastTrackedStep(orders, replies, i, k);
        if k != id {
          assert driverLocationMaps[k] == maps1[k];
        }
      }
    }
  }

  /** The Maps hold an entry for the ids `ids` besides those of `maps0` and
      `intervals0`; each id of `ids` has a map and a timer with a handle of
      at least `handle0`, and every other entry is unchanged. */
  predicate StoredSince(ids: set<Value>, maps: map<Value, MapData>, intervals: map<Value, nat>,
                        maps0: map<Value, MapData>, intervals0: map<Value, nat>, handle0: nat)
  {
    && intervals.Keys == intervals0.Keys + ids
    && maps.Keys == maps0.Keys + ids
    && (forall k :: k in ids ==> maps[k].view >= handle0 && intervals[k] >= handle0)
    && (forall k :: k in maps0 && k !in ids ==> maps[k] == maps0[k])
    && (forall k :: k in intervals0 && k !in ids ==> intervals[k] == intervals0[k])
  }

  /** Storing a new map and timer under `id` adds `id` to the stored ids. */
  lemma StoredSinceGrows(ids: set<Value>, maps: map<Value, MapData>, intervals: map<Value, nat>,
                         maps0: map<Value, MapData>, intervals0: map<Value, nat>, handle0: nat,
                         id: Value, m: MapData, t: nat)
    requires StoredSince(ids, maps, intervals, maps0, intervals0, handle0)
    requires m.view >= handle0 && t >= handle0
    ensures StoredSince(ids + {id}, maps[id := m], intervals[id := t], maps0, intervals0, handle0)
  {
  }

  /** The map handles stored under `keys`. */
  function Views(maps: map<Value, MapData>, keys: set<Value>): set<nat> {
    set k | k in keys && k in maps :: maps[k].view
  }

  lemma ViewsGrow(maps: map<Value, MapData>, keys: set<Value>, k: Value)
    requires k in maps
    ensures Views(maps, keys + {k}) == Views(maps, keys) + {maps[k].view}
  {
  }

  /** The timer ids stored under `keys`. */
  function Timers(intervals: map<Value, nat>, keys: set<Value>): set<nat> {
    set k | k in keys && k in intervals :: intervals[k]
  }

  lemma TimersGrow(intervals: map<Value, nat>, keys: set<Value>, k: Value)
    requires k in intervals
    ensures Timers(intervals, keys + {k}) == Timers(intervals, keys) + {intervals[k]}
  {
  }
}
