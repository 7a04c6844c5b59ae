/**
  The `remind` command (src/commands/user/SetReminder.ts). Its arguments
  are `<message...> <N><unit>`: every argument but the last is the message,
  the last one is a number followed by one of the units d, h, m or s. The
  command replies with the delay in seconds and schedules the reminder
  after the delay in milliseconds.
 */
module SetReminder {
  import opened Wrappers
  import opened Text

  datatype TimeUnit = Days | Hours | Minutes | Seconds

  /** The unit a time token's last character names, if any. */
  function UnitOf(c: char): (u: Option<TimeUnit>)
    ensures u.None? <==> c !in "dhms"
  {
    match c
    case 'd' => Some(Days)
    case 'h' => Some(Hours)
    case 'm' => Some(Minutes)
    case 's' => Some(Seconds)
    case _ => None
  }

  /** The character that names `u`. */
  function UnitChar(u: TimeUnit): char
  {
    match u
    case Days => 'd'
    case Hours => 'h'
    case Minutes => 'm'
    case Seconds => 's'
  }

  /** Naming a unit and reading the name back are inverse. */
  lemma UnitCharRoundTrip(u: TimeUnit, c: char)
    ensures UnitOf(UnitChar(u)) == Some(u)
    ensures UnitOf(c) == Some(u) ==> UnitChar(u) == c
  {
  }

  /** The length of one unit in seconds. */
  function SecondsPerUnit(u: TimeUnit): nat
  {
    match u
    case Days => 60 * 60 * 24
    case Hours => 60 * 60
    case Minutes => 60
    case Seconds => 1
  }

  /** A day is 24 hours, an hour 60 minutes, a minute 60 seconds. */
  lemma UnitsNest()
    ensures SecondsPerUnit(Seconds) == 1
    ensures SecondsPerUnit(Minutes) == 60 * SecondsPerUnit(Seconds)
    ensures SecondsPerUnit(Hours) == 60 * SecondsPerUnit(Minutes)
    ensures SecondsPerUnit(Days) == 24 * SecondsPerUnit(Hours)
  {
  }

  /** The factor the `switch` multiplies the number by. */
  function MillisPerUnit(u: TimeUnit): (ms: nat)
    ensures ms == SecondsPerUnit(u) * 1000
  {
    match u
    case Days => 60 * 60 * 24 * 1000
    case Hours => 60 * 60 * 1000
    case Minutes => 60 * 1000
    case Seconds => 1000
  }

  /** A JavaScript number as far as this command can produce one. */
  datatype Amount = Finite(n: nat) | NaN

  predicate IsDigits(s: string)
  {
    forall i :: 0 <= i < |s| ==> '0' <= s[i] <= '9'
  }

  /** The value of a string of decimal digits, read left to right. */
  function DigitsValue(s: string): nat
    requires IsDigits(s)
  {
    if |s| == 0 then 0
    else DigitsValue(s[..|s| - 1]) * 10 + (s[|s| - 1] as int - '0' as int)
  }

  /**
    The numeric coercion `*=` applies to the prefix of the time token:
    a digit string (the empty one included) is its value, anything else NaN.
   */
  function ToNumber(s: string): (a: Amount)
    ensures a.Finite? <==> forall i :: 0 <= i < |s| ==> '0' <= s[i] <= '9'
    ensures s == "" ==> a == Finite(0)
  {
    if IsDigits(s) then Finite(DigitsValue(s)) else NaN
  }

  function Scale(a: Amount, factor: nat): Amount
  {
    match a
    case Finite(n) => Finite(n * factor)
    case NaN => NaN
  }

  datatype ReminderError = MissingMessage | UnknownUnit

  /** What is scheduled: the message and the delay in milliseconds. */
  datatype Reminder = Reminder(message: string, delayMs: Amount)

  /** `args.slice(0, args.length - 1).join(' ')`. */
  function MessageOf(args: seq<string>): string
  {
    Join(if |args| == 0 then [] else args[..|args| - 1], ' ')
  }

  /** The reminder the command schedules for `args`, or the error it replies with. */
  function Run(args: seq<string>): (r: Result<Reminder, ReminderError>)
    ensures r.Ok? ==> |args| >= 2 && r.value.message == MessageOf(args) && r.value.message != ""
    ensures r.Ok? ==> args[|args| - 1] != "" && args[|args| - 1][|args[|args| - 1]| - 1] in "dhms"
  {
    var message := MessageOf(args);
    if message == "" then Err(MissingMessage)
    else
      var time := args[|args| - 1];
      if |time| == 0 then Err(UnknownUnit)
      else
        match UnitOf(time[|time| - 1])
        case None => Err(UnknownUnit)
        case Some(u) => Ok(Reminder(message, Scale(ToNumber(time[..|time| - 1]), MillisPerUnit(u))))
  }

  /** `ms / 1000`, the seconds shown in the confirmation reply. */
  function ConfirmationSeconds(delayMs: Amount): Amount
  {
    match delayMs
    case Finite(ms) => Finite(ms / 1000)
    case NaN => NaN
  }

  /** The decimal notation of `n`, without leading zeros. */
  function Decimal(n: nat): (s: string)
    ensures |s| > 0 && IsDigits(s)
  {
    if n < 10 then [('0' as int + n) as char]
    else Decimal(n / 10) + [('0' as int + n % 10) as char]
  }

  /** Reading back the decimal notation of `n` gives `n`. */
  lemma {:induction false} DecimalRoundTrip(n: nat)
    ensures DigitsValue(Decimal(n)) == n
  {
    var s := Decimal(n);
    if n >= 10 {
      assert s[..|s| - 1] == Decimal(n / 10);
      DecimalRoundTrip(n / 10);
    } else {
      assert s[..|s| - 1] == [];
    }
  }

  /** A message and a well-formed `<N><unit>` token schedule N units of delay. */
  lemma RunSchedulesAfterUnits(words: seq<string>, n: nat, u: TimeUnit)
    requires Join(words, ' ') != ""
    ensures Run(words + [Decimal(n) + [UnitChar(u)]])
         == Ok(Reminder(Join(words, ' '), Finite(n * MillisPerUnit(u))))
  {
    var args := words + [Decimal(n) + [UnitChar(u)]];
    assert args[..|args| - 1] == words;
    var time := args[|args| - 1];
    assert time[..|time| - 1] == Decimal(n);
    DecimalRoundTrip(n);
  }

  /** The command refuses exactly when the message is empty or the unit is not d, h, m or s. */
  lemma RunErrors(args: seq<string>)
    ensures Run(args) == Err(MissingMessage) <==> MessageOf(args) == ""
    ensures Run(args) == Err(UnknownUnit) <==>
      MessageOf(args) != "" && (args[|args| - 1] == "" || args[|args| - 1][|args[|args| - 1]| - 1] !in "dhms")
  {
  }

  /** The confirmation shows N times the unit's length in seconds. */
  lemma ConfirmationInUnits(args: seq<string>, n: nat)
    requires Run(args).Ok? && Run(args).value.delayMs.Finite?
    ensures var time := args[|args| - 1];
            var u := UnitOf(time[|time| - 1]).value;
            ToNumber(time[..|time| - 1]) == Finite(n) ==>
              ConfirmationSeconds(Run(args).value.delayMs) == Finite(n * SecondsPerUnit(u))
  {
    var time := args[|args| - 1];
    var u := UnitOf(time[|time| - 1]).value;
    if ToNumber(time[..|time| - 1]) == Finite(n) {
      var k := SecondsPerUnit(u);
      assert n * MillisPerUnit(u) == (n * k) * 1000;
    }
  }
}
