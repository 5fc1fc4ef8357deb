/**
 * The web front end: the single shared latest-angles record, the JSON intake
 * `receive_angles`, the status read `get_status` and the HTML form handler
 * `send_angles`. Flask's request parsing is replaced by already-parsed
 * inputs, `datetime.now()` by a timestamp parameter, and the Arduino's write
 * outcomes by the `failAt` oracle of `ArduinoLink`.
 */
module WebApp {
  import opened Optional
  import Decimal
  import ArduinoLink

  const MinAngle := 0
  const MaxAngle := 180
  const AngleCount := 4

  const StatusWaiting := "等待数据"
  const StatusSending := "正在发送..."
  const StatusSent := "发送成功"
  const StatusSendFailed := "发送失败"
  const StatusManualSent := "手动发送成功"
  const StatusErrorPrefix := "错误: "

  const MessageSent := "角度已发送到Arduino"
  const PageErrorPrefix := "错误："
  const PageRangeError := "错误：角度值必须在0-180之间"
  const PageArduinoError := "错误：Arduino通信失败"

  /**
   * One element of the posted `angles` list: an int, or a non-numeric JSON
   * value (string, list, object, null) together with its `str()`. Float and
   * boolean elements are not represented.
   */
  datatype Item = Num(n: int) | Other(text: string)

  /**
   * The parsed JSON body of a `receive_angles` request.
   * Unreadable: reading the body raised, or the body is a value on which
   *   `'angles' in data` or `data['angles']` raises (a number; a list or a
   *   string that contains "angles").
   * NoAngles: the body is empty or falsy, or has no `angles` key.
   * Unsized: `angles` has no length (a number, null), so `len` raises.
   * AngleList: `angles` is a sized collection with these elements.
   */
  datatype Payload = Unreadable | NoAngles | Unsized | AngleList(items: seq<Item>)

  datatype Rejection =
    | BadFormat
    | WrongCount
    | BadAngle(position: nat, item: Item)  // position counts from 1
    | ArduinoFailed
    | Raised(text: string)

  datatype ApiReply = Success(message: string) | Failure(error: Rejection)

  /** The HTML form's four fields, each as `int(...)` gives it, None when that raises. */
  datatype Form = Form(angle1: Option<int>, angle2: Option<int>, angle3: Option<int>, angle4: Option<int>)

  datatype PageReply = RedirectHome | ErrorPage(text: string)

  /** The JSON object `get_status` returns. */
  datatype StatusRecord = StatusRecord(angles: Option<seq<int>>, timestamp: Option<string>, status: string)

  predicate InRange(a: int) { MinAngle <= a <= MaxAngle }

  predicate ValidItem(x: Item) { x.Num? && InRange(x.n) }

  predicate ValidAngleSet(s: seq<int>)
  {
    |s| == AngleCount && forall i :: 0 <= i < |s| ==> InRange(s[i])
  }

  function ItemText(x: Item): string
  {
    match x
    case Num(n) => Decimal.IntToText(n)
    case Other(t) => t
  }

  /** The `error` text of each rejection; a bad element's text names its position. */
  function ErrorText(r: Rejection): (text: string)
    ensures r.Raised? ==> text == r.text
    ensures r.BadAngle? ==>
      var k := |Decimal.IntToText(r.position)|;
      |text| >= 2 + k && text[..2] == "角度" && Decimal.ParseInt(text[2..2 + k]) == Some(r.position)
  {
    match r
    case BadFormat => "数据格式错误，需要angles字段"
    case WrongCount => "需要4个角度值"
    case BadAngle(p, x) =>
      var pos := Decimal.IntToText(p);
      var t := "角度" + pos + "无效: " + ItemText(x);
      Decimal.IntToTextRoundTrip(p);
      assert t[2..2 + |pos|] == pos;
      t
    case ArduinoFailed => "Arduino通信失败"
    case Raised(t) => t
  }

  function Values(items: seq<Item>): seq<int>
    requires forall i :: 0 <= i < |items| ==> items[i].Num?
  {
    seq(|items|, i requires 0 <= i < |items| => items[i].n)
  }

  /** The first element of `items` that is not a number in [0, 180], if any. */
  method FindInvalid(items: seq<Item>) returns (bad: Option<nat>)
    ensures bad.None? <==> forall i :: 0 <= i < |items| ==> ValidItem(items[i])
    ensures bad.Some? ==> bad.value < |items| && !ValidItem(items[bad.value])
    ensures bad.Some? ==> forall i :: 0 <= i < bad.value ==> ValidItem(items[i])
  {
    for i := 0 to |items|
      invariant forall j :: 0 <= j < i ==> ValidItem(items[j])
    {
      if !(items[i].Num? && InRange(items[i].n)) {
        return Some(i);
      }
    }
    return None;
  }

  class Server {
    /** The three entries of the module-level `latest_angles` dict. */
    var angles: Option<seq<int>>
    var timestamp: Option<string>
    var status: string
    /** The module-level Arduino controller. */
    const arduino: ArduinoLink.ArduinoController

    function Record(): StatusRecord
      reads this
    {
      StatusRecord(angles, timestamp, status)
    }

    /** Only a validated angle set is ever stored, and never without a timestamp. */
    ghost predicate Valid()
      reads this
    {
      angles.Some? ==> ValidAngleSet(angles.value) && timestamp.Some?
    }

    constructor (openOk: bool)
      ensures Valid()
      ensures Record() == StatusRecord(None, None, StatusWaiting)
      ensures fresh(arduino) && arduino.IsConnected() == openOk && arduino.written == []
    {
      angles := None;
      timestamp := None;
      status := StatusWaiting;
      arduino := new ArduinoLink.ArduinoController(openOk);
    }

    /**
     * `POST /api/receive_angles`. Checks, in order, that there is an `angles`
     * field, that it holds four elements, and that each is a number in
     * [0, 180]; the first failure rejects without touching the record. An
     * accepted set is stored with `now` before the Arduino is contacted, and
     * the status then tells whether the send succeeded.
     */
    method ReceiveAngles(p: Payload, failAt: Option<nat>, now: string, err: string) returns (r: ApiReply)
      requires Valid()
      modifies this, arduino
      ensures Valid()
      ensures arduino.ser == old(arduino.ser)
      ensures p.Unreadable? || p.Unsized? ==>
        r == Failure(Raised(err)) && Record() == old(Record()).(status := StatusErrorPrefix + err)
        && status == StatusErrorPrefix + ErrorText(r.error)
        && arduino.written == old(arduino.written)
      ensures p.NoAngles? ==>
        r == Failure(BadFormat) && Record() == old(Record()) && arduino.written == old(arduino.written)
      ensures p.AngleList? && |p.items| != AngleCount ==>
        r == Failure(WrongCount) && Record() == old(Record()) && arduino.written == old(arduino.written)
      ensures p.AngleList? && |p.items| == AngleCount && (exists i :: 0 <= i < |p.items| && !ValidItem(p.items[i])) ==>
        && r.Failure? && r.error.BadAngle?
        && 1 <= r.error.position <= AngleCount
        && r.error.item == p.items[r.error.position - 1]
        && !ValidItem(r.error.item)
        && (forall i :: 0 <= i < r.error.position - 1 ==> ValidItem(p.items[i]))
        && Record() == old(Record()) && arduino.written == old(arduino.written)
      ensures p.AngleList? && |p.items| == AngleCount && (forall i :: 0 <= i < |p.items| ==> ValidItem(p.items[i])) ==>
        var sent := ArduinoLink.WritesDone(AngleCount, arduino.IsConnected(), failAt);
        && angles == Some(Values(p.items))
        && timestamp == Some(now)
        && arduino.written == old(arduino.written) + ArduinoLink.Tokens(Values(p.items)[..sent])
        && (if sent == AngleCount
            then status == StatusSent && r == Success(MessageSent)
            else status == StatusSendFailed && r == Failure(ArduinoFailed))
    {
      match p {
        case Unreadable =>
          status := StatusErrorPrefix + err;
          return Failure(Raised(err));
        case Unsized =>
          status := StatusErrorPrefix + err;
          return Failure(Raised(err));
        case NoAngles =>
          return Failure(BadFormat);
        case AngleList(items) =>
          if |items| != AngleCount {
            return Failure(WrongCount);
          }
          var bad := FindInvalid(items);
          if bad.Some? {
            return Failure(BadAngle(bad.value + 1, items[bad.value]));
          }
          var list := Values(items);
          angles := Some(list);
          timestamp := Some(now);
          status := StatusSending;
          var ok := arduino.SendAngles(list, failAt);
          if ok {
            status := StatusSent;
            return Success(MessageSent);
          } else {
            status := StatusSendFailed;
            return Failure(ArduinoFailed);
          }
      }
    }

    /** `GET /api/get_status`: the record exactly as stored. */
    method GetStatus() returns (rec: StatusRecord)
      ensures rec.angles == angles && rec.timestamp == timestamp && rec.status == status
    {
      rec := Record();
    }

    /**
     * `POST /send_angles`, the HTML form. Any field that does not convert or
     * any value outside [0, 180] rejects; the record changes only when the
     * Arduino send succeeds.
     */
    method SendAnglesForm(form: Form, failAt: Option<nat>, now: string, err: string) returns (r: PageReply)
      requires Valid()
      modifies this, arduino
      ensures Valid()
      ensures arduino.ser == old(arduino.ser)
      ensures ConvertForm(form).None? ==>
        r == ErrorPage(PageErrorPrefix + err) && Record() == old(Record()) && arduino.written == old(arduino.written)
      ensures ConvertForm(form).Some? && !ValidAngleSet(ConvertForm(form).value) ==>
        r == ErrorPage(PageRangeError) && Record() == old(Record()) && arduino.written == old(arduino.written)
      ensures ConvertForm(form).Some? && ValidAngleSet(ConvertForm(form).value) ==>
        var sent := ArduinoLink.WritesDone(AngleCount, arduino.IsConnected(), failAt);
        && arduino.written == old(arduino.written) + ArduinoLink.Tokens(ConvertForm(form).value[..sent])
        && (if sent == AngleCount
            then r == RedirectHome && Record() == StatusRecord(ConvertForm(form), Some(now), StatusManualSent)
            else r == ErrorPage(PageArduinoError) && Record() == old(Record()))
    {
      var converted := ConvertForm(form);
      if converted.None? {
        return ErrorPage(PageErrorPrefix + err);
      }
      var list := converted.value;
      var items := seq(|list|, i requires 0 <= i < |list| => Num(list[i]));
      var bad := FindInvalid(items);
      if bad.Some? {
        return ErrorPage(PageRangeError);
      }
      assert forall i :: 0 <= i < |list| ==> ValidItem(items[i]) && items[i].n == list[i];
      var ok := arduino.SendAngles(list, failAt);
      if ok {
        angles := Some(list);
        timestamp := Some(now);
        status := StatusManualSent;
        return RedirectHome;
      } else {
        return ErrorPage(PageArduinoError);
      }
    }
  }

  /** The list `[int(angle1), ..., int(angle4)]`: none as soon as one field does not convert. */
  function ConvertForm(form: Form): (vs: Option<seq<int>>)
    ensures vs.None? <==> form.angle1.None? || form.angle2.None? || form.angle3.None? || form.angle4.None?
    ensures vs.Some? ==> |vs.value| == AngleCount
    ensures vs.Some? ==>
      && vs.value[0] == form.angle1.value && vs.value[1] == form.angle2.value
      && vs.value[2] == form.angle3.value && vs.value[3] == form.angle4.value
  {
    match (form.angle1, form.angle2, form.angle3, form.angle4)
    case (Some(a1), Some(a2), Some(a3), Some(a4)) => Some([a1, a2, a3, a4])
    case _ => None
  }

  /** A valid set posted to the intake and then read back gives the same four values and a timestamp. */
  method AcceptThenRead(server: Server, a: seq<int>, failAt: Option<nat>, now: string) returns (rec: StatusRecord)
    requires server.Valid() && ValidAngleSet(a)
    modifies server, server.arduino
    ensures rec.angles == Some(a) && rec.timestamp == Some(now)
    ensures rec.status == StatusSent || rec.status == StatusSendFailed
  {
    var items := seq(|a|, i requires 0 <= i < |a| => Num(a[i]));
    assert Values(items) == a;
    var reply := server.ReceiveAngles(AngleList(items), failAt, now, "");
    rec := server.GetStatus();
  }

  /** One out-of-range angle rejects the whole set, naming its position. */
  method RejectOutOfRangeThird(server: Server, failAt: Option<nat>, now: string) returns (reply: ApiReply)
    requires server.Valid()
    modifies server, server.arduino
    ensures reply == Failure(BadAngle(3, Num(181)))
    ensures server.Record() == old(server.Record())
  {
    var items := [Num(90), Num(45), Num(181), Num(60)];
    assert !ValidItem(items[2]);
    reply := server.ReceiveAngles(AngleList(items), failAt, now, "");
    assert ValidItem(items[0]) && ValidItem(items[1]);
  }
}
