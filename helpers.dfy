/**
  The pure helpers the order view uses: the Spanish label of an order status
  and the rounded number of minutes until the estimated delivery.

  The clock read and the date parsing of `calcMinutesLeft` are outside the
  model: both instants arrive as integer millisecond timestamps.
 */
module Helpers {

  const MillisPerMinute: int := 60000

  /** `Math.round`: the nearest integer, halves rounded toward +infinity. */
  function RoundHalfUp(x: real): (r: int)
    ensures x - 0.5 < r as real <= x + 0.5
  {
    (x + 0.5).Floor
  }

  /** `Math.round((delivery - now) / 60000)`, in integer arithmetic. */
  function CalcMinutesLeft(now: int, delivery: int): (r: int)
    ensures MillisPerMinute * r - 30000 <= delivery - now < MillisPerMinute * r + 30000
  {
    (delivery - now + 30000) / MillisPerMinute
  }

  /** The integer formula is `Math.round` of the exact quotient. */
  lemma MinutesLeftIsRounded(now: int, delivery: int)
    ensures CalcMinutesLeft(now, delivery) == RoundHalfUp((delivery - now) as real / 60000.0)
  {
    var r := CalcMinutesLeft(now, delivery);
    var x := (delivery - now) as real / 60000.0;
    assert (delivery - now) as real == x * 60000.0;
    assert r as real <= x + 0.5 < r as real + 1.0;
  }

  lemma MinutesLeftExamples(now: int)
    ensures CalcMinutesLeft(now, now) == 0
    ensures CalcMinutesLeft(now, now + 1800000) == 30
    ensures CalcMinutesLeft(now, now + 30000) == 1
    ensures CalcMinutesLeft(now, now - 30000) == 0
  {
  }

  /** A later delivery never shows fewer minutes. */
  lemma MinutesLeftMonotone(now: int, d1: int, d2: int)
    requires d1 <= d2
    ensures CalcMinutesLeft(now, d1) <= CalcMinutesLeft(now, d2)
  {
  }

  /** The count is negative exactly when delivery is more than 30 seconds past. */
  lemma MinutesLeftNegativeIff(now: int, delivery: int)
    ensures CalcMinutesLeft(now, delivery) < 0 <==> delivery < now - 30000
  {
  }

  /** The statuses an order record can carry (`OrderType.status`). */
  datatype OrderStatus = Preparing | OnTheWay | Delivered

  function StatusText(status: OrderStatus): string {
    match status
    case Preparing => "preparing"
    case OnTheWay => "on the way"
    case Delivered => "delivered"
  }

  const Unknown: string := "Desconocido"

  /** The `switch` of `translateStatus`, with its default arm. */
  function TranslateStatus(status: string): (r: string)
    ensures r in {"En preparación", "En camino", "Entregado", Unknown}
  {
    match status
    case "preparing" => "En preparación"
    case "on the way" => "En camino"
    case "delivered" => "Entregado"
    case _ => Unknown
  }

  /** Each of the three known statuses has its own label. */
  lemma TranslateKnownStatuses()
    ensures TranslateStatus("preparing") == "En preparación"
    ensures TranslateStatus("on the way") == "En camino"
    ensures TranslateStatus("delivered") == "Entregado"
  {
  }

  /** A string gets the fallback label exactly when it is none of the
      statuses an order record can carry. */
  lemma TranslateStatusUnknownIff(status: string)
    ensures TranslateStatus(status) == Unknown <==> forall s: OrderStatus :: StatusText(s) != status
  {
    if status == "preparing" {
      assert StatusText(Preparing) == status;
    } else if status == "on the way" {
      assert StatusText(OnTheWay) == status;
    } else if status == "delivered" {
      assert StatusText(Delivered) == status;
    }
  }

  /** Distinct statuses get distinct labels. */
  lemma TranslateStatusInjective(a: OrderStatus, b: OrderStatus)
    requires a != b
    ensures TranslateStatus(StatusText(a)) != TranslateStatus(StatusText(b))
  {
  }
}
