/**
 * The dashboard's nudge to keep recording expenses: a small table of
 * rules over how long ago the latest expense was entered and how close
 * the month is to its end.
 */
module Reminder {
  import opened Wrappers
  import opened Text
  import opened Domain

  datatype Urgency = Warning | Gentle | Info

  datatype Nudge = Nudge(title: string, description: string, urgency: Urgency)

  const StartNudge := Nudge("¡Empieza a registrar!", "Agrega tu primer gasto para llevar el control.", Info)
  const TodayNudge := Nudge("¿Gastos de hoy?", "Registra los gastos del día para no olvidarlos.", Gentle)
  const MonthEndNudge :=
    Nudge("Fin de mes", "Revisa tus reportes mensuales y salda cuentas antes de cerrar el mes.", Info)

  /** The warning after `days` days of silence. */
  function SilenceNudge(days: int): Nudge {
    Nudge(IntText(days) + " días sin registrar gastos",
      "No olvides anotar tus gastos para mantener las cuentas al día.", Warning)
  }

  /** When the latest expense was entered: its creation stamp, or noon of its date when it has none. */
  function LastActivity(e: Expense): string {
    if Truthy(e.createdAt) then e.createdAt.value else e.date + "T12:00:00"
  }

  /**
   * The reminder for a list whose first entry is the latest expense.
   * `daysSince` gives the whole days from a stamp to now, `today` is the
   * day of the month and `daysInMonth` the month's length.
   */
  function ReminderFor(expenses: seq<Expense>, daysSince: string -> int, today: int, daysInMonth: int): Option<Nudge> {
    if |expenses| == 0 then Some(StartNudge)
    else
      var days := daysSince(LastActivity(expenses[0]));
      if days >= 3 then Some(SilenceNudge(days))
      else if days >= 1 then Some(TodayNudge)
      else if today >= daysInMonth - 1 then Some(MonthEndNudge)
      else None
  }

  /** The day count the rules look at; none for an empty list. */
  function DaysIdle(expenses: seq<Expense>, daysSince: string -> int): int {
    if expenses == [] then 0 else daysSince(LastActivity(expenses[0]))
  }

  /**
   * The rules are tried in order, so every situation has exactly one
   * outcome: a start hint for an empty list, a warning from three idle
   * days, a gentle hint from one, the end-of-month hint in the month's last
   * two days, and otherwise nothing.
   */
  lemma ReminderTable(expenses: seq<Expense>, daysSince: string -> int, today: int, daysInMonth: int)
    ensures var r := ReminderFor(expenses, daysSince, today, daysInMonth);
      var d := DaysIdle(expenses, daysSince);
      && (r == Some(StartNudge) <==> expenses == [])
      && (r.Some? && r.value.urgency == Warning <==> expenses != [] && d >= 3)
      && (r == Some(TodayNudge) <==> expenses != [] && 1 <= d < 3)
      && (r == Some(MonthEndNudge) <==> expenses != [] && d < 1 && today >= daysInMonth - 1)
      && (r.None? <==> expenses != [] && d < 1 && today < daysInMonth - 1)
  {
    var r := ReminderFor(expenses, daysSince, today, daysInMonth);
    assert StartNudge != MonthEndNudge by {
      assert StartNudge.title[0] != MonthEndNudge.title[0];
    }
  }

  /** The warning's title starts with the number of idle days. */
  lemma SilenceTitleCount(days: int)
    requires days >= 3
    ensures ParseFloat(SilenceNudge(days).title) == Some(days as real)
  {
    ParseNatPrefix(days, " días sin registrar gastos");
  }

  /** Only the first entry of the list is consulted. */
  lemma OnlyLatestCounts(expenses: seq<Expense>, daysSince: string -> int, today: int, daysInMonth: int)
    requires expenses != []
    ensures ReminderFor(expenses, daysSince, today, daysInMonth) == ReminderFor([expenses[0]], daysSince, today, daysInMonth)
  {
  }
}
