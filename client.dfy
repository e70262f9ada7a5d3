/**
 * The decisions of the tracking page (app.js) that do not touch the live
 * map state: the status badge of an order, whether an order gets live
 * tracking, the phone field's validity, what the search form does with a
 * submission and the order service's reply, the minimum loading time, and
 * the "updated ... ago" bucket of a driver location.
 */
module Client {
  import opened Js

  // ---------------------------------------------------------- status badge

  /** A badge: the text, Bootstrap icon class and colour rendered for an
      order's `display_status`. A missing field renders as "undefined". */
  datatype Badge = Badge(text: Value, icon: Value, color: Value)

  function Entry(status: string, icon: string, color: string): Badge {
    Badge(Some(JStr(status)), Some(JStr(icon)), Some(JStr(color)))
  }

  /** `statusMap`: the badge of each delivery status the order service
      reports. */
  const StatusTable: map<string, Badge> := map[
    "订单已接收" := Entry("订单已接收", "bi-clock", "secondary"),
    "订单已处理" := Entry("订单已处理", "bi-gear", "success"),
    "已分配配送" := Entry("已分配配送", "bi-calendar-check", "warning"),
    "配送已安排" := Entry("配送已安排", "bi-calendar-check", "warning"),
    "正在配送" := Entry("正在配送", "bi-truck", "primary"),
    "配送完成" := Entry("配送完成", "bi-check-circle", "success"),
    "配送失败" := Entry("配送失败", "bi-x-circle", "danger")
  ]

  /** The badge of a status the table does not know. */
  function FallbackBadge(status: Value): Badge {
    Badge(status, Some(JStr("bi-info-circle")), Some(JStr("secondary")))
  }

  /** The names every plain object literal inherits from `Object.prototype`.
      Looking one of them up on `statusMap` finds a function (or, for
      `__proto__`, the prototype itself), which is truthy. */
  const PrototypeNames: set<string> := {
    "constructor", "hasOwnProperty", "isPrototypeOf", "propertyIsEnumerable",
    "toLocaleString", "toString", "valueOf", "__proto__",
    "__defineGetter__", "__defineSetter__", "__lookupGetter__", "__lookupSetter__"
  }

  /** `String(j)`, the key a property lookup converts a status to; None
      when the conversion throws (see Stringable) or when the text holds a
      numeral. A numeral always has a digit, and no table key and no
      inherited member name has one, so such a key names neither (the model
      does not format numbers). */
  function KeyText(j: Json): Option<string>
    decreases j, if j.JArr? then |j.items| + 1 else 0
  {
    match j
    case JNull => Some("null")
    case JBool(b) => Some(if b then "true" else "false")
    case JNum(_) => None
    case JStr(s) => Some(s)
    case JObj(m) => if "toString" in m then None else Some("[object Object]")
    case JArr(items) => JoinedText(j, 0)
  }

  /** `Array.prototype.join(',')` of the array's elements from `from` on: a
      null element is the empty text, any other its `String`. */
  function JoinedText(arr: Json, from: nat): Option<string>
    requires arr.JArr? && from <= |arr.items|
    decreases arr, |arr.items| - from
  {
    if from == |arr.items| then Some("")
    else
      var first := if arr.items[from] == JNull then Some("") else KeyText(arr.items[from]);
      if from + 1 == |arr.items| then first
      else
        var rest := JoinedText(arr, from + 1);
        if first.None? || rest.None? then None else Some(first.value + "," + rest.value)
  }

  /** A key text exists only for a value whose conversion returns. */
  lemma {:induction false} KeyTextStringable(j: Json)
    ensures KeyText(j).Some? ==> Stringable(j)
    decreases j, if j.JArr? then |j.items| + 1 else 0
  {
    if j.JArr? {
      JoinedTextStringable(j, 0);
    }
  }

  lemma {:induction false} JoinedTextStringable(arr: Json, from: nat)
    requires arr.JArr? && from <= |arr.items|
    ensures JoinedText(arr, from).Some? ==> forall k :: from <= k < |arr.items| ==> Stringable(arr.items[k])
    decreases arr, |arr.items| - from
  {
    if from < |arr.items| && JoinedText(arr, from).Some? {
      KeyTextStringable(arr.items[from]);
      if from + 1 < |arr.items| {
        JoinedTextStringable(arr, from + 1);
      }
    }
  }

  /** `statusMap[status]` converts the status to a key first, which throws
      for a value Stringable rules out; undefined converts. */
  predicate ConvertsToKey(status: Value) {
    status.None? || Stringable(status.value)
  }

  /** The status, converted to a property key, names one of `names`. */
  predicate NamesKey(status: Value, names: set<string>) {
    status.Some? && KeyText(status.value).Some? && KeyText(status.value).value in names
  }

  /** A status that names any key was converted without throwing. */
  lemma NamedStatusConverts(status: Value)
    ensures forall names :: NamesKey(status, names) ==> ConvertsToKey(status)
  {
    if status.Some? {
      KeyTextStringable(status.value);
    }
  }

  /** `statusMap[order.display_status] || { text: …, icon: 'bi-info-circle',
      color: 'secondary' }` as the page runs it: the key conversion throws
      for a status that cannot be converted; an inherited member is found
      and is truthy, so the fallback is skipped and `text`, `icon` and
      `color` all read undefined. */
  function StatusBadgeAsWritten(status: Value): (b: Read<Badge>)
    ensures b.Threw? <==> !ConvertsToKey(status)
    ensures b.Threw? ==> b == Threw(TypeErrorMessage)
    ensures NamesKey(status, StatusTable.Keys) ==> b == Got(StatusTable[KeyText(status.value).value])
    ensures NamesKey(status, PrototypeNames) ==> b == Got(Badge(None, None, None))
    ensures ConvertsToKey(status) && !NamesKey(status, StatusTable.Keys) && !NamesKey(status, PrototypeNames) ==>
      b == Got(FallbackBadge(status))
  {
    NamedStatusConverts(status);
    if !ConvertsToKey(status) then Threw(TypeErrorMessage)
    else if NamesKey(status, StatusTable.Keys) then Got(StatusTable[KeyText(status.value).value])
    else if NamesKey(status, PrototypeNames) then Got(Badge(None, None, None))
    else Got(FallbackBadge(status))
  }

  /** A status named after an inherited member renders as "undefined". */
  lemma InheritedNameLosesText()
    ensures StatusBadgeAsWritten(Some(JStr("toString"))) == Got(Badge(None, None, None))
    ensures StatusBadgeAsWritten(Some(JStr("toString"))).value.text != Some(JStr("toString"))
  {
    assert "toString" !in StatusTable.Keys;
    assert "toString" in PrototypeNames;
  }

  /** An array holding one known status finds that status's entry, as the
      status itself does. */
  lemma ArrayStatusFindsEntry()
    ensures StatusBadgeAsWritten(Some(JArr([JStr("正在配送")]))) == Got(StatusTable["正在配送"])
  {
    assert KeyText(JArr([JStr("正在配送")])) == Some("正在配送");
  }

  /** The badge lookup as intended: only the table's own entries count. The
      key conversion still throws for a status that cannot be converted. */
  function StatusBadge(status: Value): (b: Read<Badge>)
    ensures b.Threw? <==> !ConvertsToKey(status)
    ensures b.Threw? ==> b == Threw(TypeErrorMessage)
    ensures status.Some? && status.value.JStr? ==> b.Got? && b.value.text == status
    ensures b.Got? ==>
      b.value.text == status || (NamesKey(status, StatusTable.Keys) && b.value.text == Some(JStr(KeyText(status.value).value)))
    ensures NamesKey(status, StatusTable.Keys) ==> b == Got(StatusTable[KeyText(status.value).value])
    ensures ConvertsToKey(status) && !NamesKey(status, StatusTable.Keys) ==> b == Got(FallbackBadge(status))
  {
    NamedStatusConverts(status);
    if !ConvertsToKey(status) then Threw(TypeErrorMessage)
    else if NamesKey(status, StatusTable.Keys) then Got(StatusTable[KeyText(status.value).value])
    else Got(FallbackBadge(status))
  }

  /** Every table entry shows its own key, so the badge shows the status's
      text; the corrected lookup agrees with the page on every status that
      is not an inherited member name. */
  lemma StatusBadgeShowsStatus(status: Value)
    ensures NamesKey(status, StatusTable.Keys) ==> StatusBadge(status).value.text == Some(JStr(KeyText(status.value).value))
    ensures ConvertsToKey(status) && !NamesKey(status, StatusTable.Keys) ==> StatusBadge(status).value.text == status
    ensures !NamesKey(status, PrototypeNames) ==> StatusBadge(status) == StatusBadgeAsWritten(status)
  {
  }

  // ------------------------------------------------------- live tracking

  const Delivering: string := "正在配送"
  const Assigned: string := "已分配配送"

  /** `(order.display_status === '正在配送' || order.display_status ===
      '已分配配送') && order.route_id`: the one test that both renders an
      order's map container and starts its driver-location polling. */
  predicate LiveTrackingEligible(order: Json) {
    (Property(order, "display_status") == Some(JStr(Delivering))
     || Property(order, "display_status") == Some(JStr(Assigned)))
    && Truthy(Property(order, "route_id"))
  }

  /** Only a delivering or assigned order with a route is tracked; the two
      statuses that qualify both have a table badge. */
  lemma EligibleHasTableBadge(order: Json)
    requires LiveTrackingEligible(order)
    ensures NamesKey(Property(order, "display_status"), StatusTable.Keys)
    ensures StatusBadge(Property(order, "display_status")).Got?
    ensures StatusBadge(Property(order, "display_status")).value.icon
            in {Some(JStr("bi-truck")), Some(JStr("bi-calendar-check"))}
  {
  }

  // ---------------------------------------------------------- phone field

  /** One character of the class `[\d\-\+\s\(\)]`. */
  predicate PhoneChar(c: char) {
    IsDigit(c) || c == '-' || c == '+' || IsJsWhitespace(c) || c == '(' || c == ')'
  }

  /** `/^[\d\-\+\s\(\)]+$/.test(s)`, matched one character at a time. */
  predicate MatchesPhonePattern(s: string) {
    |s| > 0 && PhoneChar(s[0]) && (|s| == 1 || MatchesPhonePattern(s[1..]))
  }

  lemma {:induction false} PhonePatternMeaning(s: string)
    ensures MatchesPhonePattern(s) <==> |s| > 0 && forall i :: 0 <= i < |s| ==> PhoneChar(s[i])
  {
    if |s| > 1 {
      PhonePatternMeaning(s[1..]);
      if forall i :: 0 <= i < |s| ==> PhoneChar(s[i]) {
        assert forall i :: 0 <= i < |s[1..]| ==> PhoneChar(s[1..][i]) by {
          forall i | 0 <= i < |s[1..]| ensures PhoneChar(s[1..][i]) {
            assert s[1..][i] == s[i + 1];
          }
        }
      }
      if MatchesPhonePattern(s) {
        forall i | 0 <= i < |s| ensures PhoneChar(s[i]) {
          if i > 0 {
            assert s[i] == s[1..][i - 1];
          }
        }
      }
    }
  }

  const InvalidPhone: string := "请输入有效的手机号码"

  /** The custom validity message the `input` listener sets: empty (valid)
      for an empty field or a field made only of digits, '-', '+',
      whitespace and parentheses; otherwise the invalid-number message. */
  function PhoneValidity(value: string): (message: string)
    ensures message == "" <==> value == "" || forall i :: 0 <= i < |value| ==> PhoneChar(value[i])
    ensures message == "" || message == InvalidPhone
  {
    PhonePatternMeaning(value);
    if value != "" && !MatchesPhonePattern(value) then InvalidPhone else ""
  }

  // -------------------------------------------------------- the search form

  const MinLoadingMs: int := 2000

  /** `Math.max(0, minLoadingTime - elapsedTime)`: the extra wait that keeps
      the loading animation up for at least two seconds, and no longer. */
  function RemainingWait(elapsedMs: int): (wait: nat)
    ensures elapsedMs + wait >= MinLoadingMs
    ensures wait == 0 <==> elapsedMs >= MinLoadingMs
    ensures wait > 0 ==> elapsedMs + wait == MinLoadingMs
  {
    if MinLoadingMs - elapsedMs > 0 then MinLoadingMs - elapsedMs else 0
  }

  /** What the results area ends up showing. */
  datatype Screen =
    | Alerted(alert: string)
    | OrdersShown(orders: seq<Json>)
    | NoResults(message: Json)
    | ErrorShown(error: string)

  /** The observable steps of one submission: the phone sent to the order
      route (None when nothing is sent), the extra wait, whether the previous
      maps and timers were cleaned up, and the screen. */
  datatype Submission = Submission(sentPhone: Option<string>, waitMs: nat, cleanedUp: bool, screen: Screen)

  const BlankPhoneAlert: string := "请输入手机号码"
  const NetworkErrorText: string := "网络错误，请稍后再试"
  const NoOrdersText: string := "未找到相关订单"

  /** `data.orders.length > 0` for the value the page reads as `length`. */
  predicate PositiveLength(length: Value) {
    length.Some? && ((length.value.JNum? && length.value.n > 0.0) || length.value == JBool(true))
  }

  /** `displayOrders` runs its `forEach` without throwing: the orders are an
      array, and no element is null (reading `display_status` of null
      throws). */
  predicate Displayable(orders: Json) {
    orders.JArr? && JNull !in orders.items
  }

  /** `data.success && data.orders && data.orders.length > 0` for a reply
      that is not null. */
  predicate FoundOrders(data: Json) {
    Truthy(Property(data, "success")) && Truthy(Property(data, "orders"))
    && PositiveLength(Property(Property(data, "orders").value, "length"))
  }

  /** The submit handler. `input` is the field's text, `reply` what
      `await (await fetch(...)).json()` gives, and `elapsedMs` the time the
      request took. A blank phone is refused before any request; every
      answered or failed request waits out the two seconds; orders are shown
      only when `success` is truthy and there is at least one order. */
  function Submit(input: string, reply: Read<Json>, elapsedMs: int): (s: Submission)
    ensures s.sentPhone == None <==> Trim(input) == ""
    ensures s.sentPhone == None ==> s == Submission(None, 0, false, Alerted(BlankPhoneAlert))
    ensures s.sentPhone.Some? ==> s.sentPhone.value == Trim(input) && s.waitMs == RemainingWait(elapsedMs)
    ensures s.screen.OrdersShown? ==>
      reply.Got? && Truthy(Property(reply.value, "success")) && s.cleanedUp && |s.screen.orders| > 0
    ensures s.screen.NoResults? ==>
      !s.cleanedUp && reply.Got? && s.screen.message == Or(Property(reply.value, "message"), JStr(NoOrdersText))
    ensures s.sentPhone.Some? && reply.Got? && reply.value != JNull && !FoundOrders(reply.value) ==>
      s.screen == NoResults(Or(Property(reply.value, "message"), JStr(NoOrdersText))) && !s.cleanedUp
    ensures s.sentPhone.Some? && reply.Got? && reply.value != JNull && FoundOrders(reply.value) ==>
      s.cleanedUp
      && (Displayable(Property(reply.value, "orders").value) ==>
            s.screen == OrdersShown(Property(reply.value, "orders").value.items))
      && (!Displayable(Property(reply.value, "orders").value) ==> s.screen == ErrorShown(NetworkErrorText))
    ensures s.sentPhone.Some? && (reply.Threw? || reply == Got(JNull)) ==>
      s.screen == ErrorShown(NetworkErrorText) && !s.cleanedUp
  {
    var phone := Trim(input);
    if phone == "" then Submission(None, 0, false, Alerted(BlankPhoneAlert))
    else
      var wait := RemainingWait(elapsedMs);
      match reply
      case Threw(_) => Submission(Some(phone), wait, false, ErrorShown(NetworkErrorText))
      case Got(data) =>
        if data == JNull then Submission(Some(phone), wait, false, ErrorShown(NetworkErrorText))
        else
          var orders := Property(data, "orders");
          if FoundOrders(data) then
            if Displayable(orders.value) then Submission(Some(phone), wait, true, OrdersShown(orders.value.items))
            else Submission(Some(phone), wait, true, ErrorShown(NetworkErrorText))
          else Submission(Some(phone), wait, false, NoResults(Or(Property(data, "message"), JStr(NoOrdersText))))
  }

  /** A field of only whitespace never reaches the order service, and the
      loading animation of a request that was sent lasts at least two
      seconds on every path, success or error. */
  lemma SubmitTiming(input: string, reply: Read<Json>, elapsedMs: int)
    ensures Submit(input, reply, elapsedMs).sentPhone == None <==> AllWhitespace(input)
    ensures Submit(input, reply, elapsedMs).sentPhone.Some? ==> elapsedMs + Submit(input, reply, elapsedMs).waitMs >= MinLoadingMs
  {
    TrimBlank(input);
  }

  // ------------------------------------------------------- time since update

  /** The bucket `getTimeAgo` renders: unknown, just now, whole minutes,
      whole hours, or the full date of the timestamp. */
  datatype Ago = Unknown | JustNow | MinutesAgo(minutes: int) | HoursAgo(hours: int) | FullDate(timestamp: Json)

  function AgoText(a: Ago): Option<string> {
    match a
    case Unknown => Some("未知")
    case JustNow => Some("刚刚")
    case MinutesAgo(m) => Some(IntToString(m) + "分钟前")
    case HoursAgo(h) => Some(IntToString(h) + "小时前")
    case FullDate(_) => None
  }

  const MsPerMinute: int := 60000

  /** `getTimeAgo(timestamp)` at clock time `nowMs`, where `parsedMs` is
      `new Date(timestamp)` in milliseconds, or None for an invalid date
      (all comparisons with NaN are false, so it falls through to the full
      date). `Math.floor` of a quotient by a positive divisor is Dafny's
      `/`. */
  function TimeAgo(timestamp: Value, nowMs: int, parsedMs: Option<int>): (a: Ago)
    ensures a == Unknown <==> !Truthy(timestamp)
    ensures Truthy(timestamp) && parsedMs.None? ==> a == FullDate(timestamp.value)
    ensures a.FullDate? ==> Some(a.timestamp) == timestamp
  {
    if !Truthy(timestamp) then Unknown
    else if parsedMs.None? then FullDate(timestamp.value)
    else
      var diffMins := (nowMs - parsedMs.value) / MsPerMinute;
      if diffMins < 1 then JustNow
      else if diffMins < 60 then MinutesAgo(diffMins)
      else
        var diffHours := diffMins / 60;
        if diffHours < 24 then HoursAgo(diffHours) else FullDate(timestamp.value)
  }

  lemma NestedFloor(d: int)
    ensures d / MsPerMinute / 60 == d / (60 * MsPerMinute)
  {
    var q := d / (60 * MsPerMinute);
    var r := d % (60 * MsPerMinute);
    assert d == q * (60 * MsPerMinute) + r && 0 <= r < 60 * MsPerMinute;
    var m := d / MsPerMinute;
    assert d == m * MsPerMinute + d % MsPerMinute;
    assert m == q * 60 + r / MsPerMinute by {
      assert d == (q * 60 + r / MsPerMinute) * MsPerMinute + r % MsPerMinute;
    }
    assert 0 <= r / MsPerMinute < 60;
  }

  /** The buckets by the elapsed milliseconds `d`: under a minute
      (including a timestamp in the future) is "just now", then whole
      minutes below an hour, then whole hours below a day, then the date. */
  lemma TimeAgoBuckets(timestamp: Value, nowMs: int, parsedMs: int)
    requires Truthy(timestamp)
    ensures var d := nowMs - parsedMs;
      var a := TimeAgo(timestamp, nowMs, Some(parsedMs));
      && (a == JustNow <==> d < MsPerMinute)
      && (a.MinutesAgo? <==> MsPerMinute <= d < 60 * MsPerMinute)
      && (a.MinutesAgo? ==> a.minutes == d / MsPerMinute && 1 <= a.minutes < 60)
      && (a.HoursAgo? <==> 60 * MsPerMinute <= d < 24 * 60 * MsPerMinute)
      && (a.HoursAgo? ==> a.hours == d / (60 * MsPerMinute) && 1 <= a.hours < 24)
      && (a.FullDate? <==> d >= 24 * 60 * MsPerMinute)
  {
    var d := nowMs - parsedMs;
    NestedFloor(d);
  }
}
