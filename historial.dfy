/**
 * The display helpers of the history page (src/app/historial/historial.page.ts): the rank
 * badge colour, zero padding and the date label. The date and the current time are inputs.
 */
module Historial {
  import opened Wrappers
  import opened Strings

  const MillisPerDay := 24 * 60 * 60 * 1000

  /** getRankColor: gold, silver and bronze for the podium, neutral otherwise. */
  function RankColor(rank: int): (c: string)
    ensures rank == 1 ==> c == "warning"
    ensures rank == 2 ==> c == "secondary"
    ensures rank == 3 ==> c == "tertiary"
    ensures c == "medium" <==> rank !in {1, 2, 3}
  {
    if rank == 1 then "warning" else if rank == 2 then "secondary" else if rank == 3 then "tertiary" else "medium"
  }

  /** padZero: a "0" in front of anything below 10 (negative numbers included). */
  function PadZero(n: int): string {
    if n < 10 then "0" + IntToString(n) else IntToString(n)
  }

  /** On non-negative numbers padZero is `padStart(2, '0')`; on negative ones it is not. */
  lemma PadZeroIsPadStart(n: int)
    ensures n >= 0 ==> PadZero(n) == PadStart2(IntToString(n))
    ensures n < 0 ==> PadZero(n) == "0-" + NatToString(-n) && PadStart2(IntToString(n)) == "-" + NatToString(-n)
  {
    if 10 <= n {
      assert |NatToString(n)| >= 2;
    }
  }

  /** Two digits that read back as the number, for every number below 100. */
  lemma PadZeroTwoDigits(n: int)
    requires 0 <= n < 100
    ensures |PadZero(n)| == 2 && AllDigits(PadZero(n))
    ensures ParseDigits(PadZero(n)) == n
  {
    ParseNatToString(n);
    if n < 10 {
      var d := NatToString(n);
      assert PadZero(n)[..1] == "0";
      assert ParseDigits("0") == 0;
    } else {
      assert |NatToString(n / 10)| == 1;
    }
  }

  /** The calendar fields and the epoch milliseconds of a Date (month counted from 0). */
  datatype DateParts = DateParts(time: int, dayOfMonth: int, month: int, year: int, hours: int, minutes: int)

  function Clock(d: DateParts): string {
    PadZero(d.hours) + ":" + PadZero(d.minutes)
  }

  /** formatDate with the current time `now`; None is a missing date. */
  function FormatDate(date: Option<DateParts>, now: DateParts): (r: string)
    ensures date.None? <==> r == ""
  {
    if date.None? then ""
    else
      var d := date.value;
      var diff := now.time - d.time;
      if diff < MillisPerDay && now.dayOfMonth == d.dayOfMonth then "Hoy a las " + Clock(d)
      else if diff < 2 * MillisPerDay && now.dayOfMonth - 1 == d.dayOfMonth then "Ayer a las " + Clock(d)
      else PadZero(d.dayOfMonth) + "/" + PadZero(d.month + 1) + "/" + IntToString(d.year) + " " + Clock(d)
  }
}
