/**
 * The calculator engine of lines 5-195 of Week4/Calculator/script.js.
 *
 * Its state lives in four module-level variables (`currentValue`,
 * `previousValue`, `currentOperator`, `shouldReset`); operators are named by
 * action ("add", "divide", ...) and looked up in the `operations` table.  A
 * zero divisor or a non-finite result puts the display into the "Error" state.
 *
 * The state is modelled twice: as the value `State`, on which each handler is
 * a pure transition function, and as the class `Calculator`, whose methods
 * update its fields in place, as the handlers do, and are proved to perform
 * exactly those transitions.
 */
module ActionCalculator {
  import opened Wrappers
  import opened JsNumber
  import opened DisplayText

  const ErrorText: string := "Error"

  /** The six entries of the `operations` table. */
  datatype Operation = Addition | Subtraction | Multiplication | Division | Modulo | Power

  /** The key under which `operations` stores an operation. */
  function ActionName(op: Operation): string {
    match op
    case Addition => "add"
    case Subtraction => "subtract"
    case Multiplication => "multiply"
    case Division => "divide"
    case Modulo => "modulo"
    case Power => "power"
  }

  /** `operations[action]`: the operation stored under a key, if there is one. */
  function OperationOf(action: string): (r: Option<Operation>)
    ensures r.Some? ==> ActionName(r.value) == action
    ensures r.None? ==> forall op :: ActionName(op) != action
  {
    if action == "add" then Some(Addition)
    else if action == "subtract" then Some(Subtraction)
    else if action == "multiply" then Some(Multiplication)
    else if action == "divide" then Some(Division)
    else if action == "modulo" then Some(Modulo)
    else if action == "power" then Some(Power)
    else None
  }

  /** Every operation is found again under its own key. */
  lemma ActionNameRoundTrip(op: Operation)
    ensures OperationOf(ActionName(op)) == Some(op)
  {
  }

  /** `getOperatorSymbol(action)`: the symbol shown for an action, or "" for any other string. */
  function OperatorSymbol(action: string): (r: string)
    ensures r != "" <==> OperationOf(action).Some?
  {
    match OperationOf(action)
    case Some(Addition) => "+"
    case Some(Subtraction) => "\U{2212}"
    case Some(Multiplication) => "\U{D7}"
    case Some(Division) => "\U{F7}"
    case Some(Modulo) => "mod"
    case Some(Power) => "^"
    case None => ""
  }

  /** Different operations are shown with different symbols. */
  lemma OperatorSymbolsDistinct(a: Operation, b: Operation)
    requires OperatorSymbol(ActionName(a)) == OperatorSymbol(ActionName(b))
    ensures a == b
  {
  }

  /** `operations[op](a, b)`: divide and modulo report a zero divisor as NaN. */
  function Operate(lib: FloatLib, op: Operation, a: Num, b: Num): (r: Num)
    ensures (op == Division || op == Modulo) && b == Zero ==> r.NaN?
    ensures op != Power && a.Fin? && b.Fin? && b != Zero ==> r.Fin?
    ensures op == Addition ==> r == Add(a, b)
    ensures op == Subtraction ==> r == Sub(a, b)
    ensures op == Multiplication ==> r == Mul(a, b)
    ensures a.Fin? && b.Fin? ==>
              && (op == Addition ==> r == Fin(a.r + b.r))
              && (op == Subtraction ==> r == Fin(a.r - b.r))
              && (op == Multiplication ==> r == Fin(a.r * b.r))
              && (op == Division && b != Zero ==> r == Fin(a.r / b.r))
    ensures op == Division && b != Zero ==> r == Div(a, b)
    ensures op == Modulo && b != Zero ==> r == Rem(a, b)
    ensures op == Power ==> r == lib.pow(a, b)
  {
    match op
    case Addition => Add(a, b)
    case Subtraction => Sub(a, b)
    case Multiplication => Mul(a, b)
    case Division => if b == Zero then NaN else Div(a, b)
    case Modulo => if b == Zero then NaN else Rem(a, b)
    case Power => lib.pow(a, b)
  }

  /**
   * `calculate(secondOperand)` against the pending action and the stored first
   * operand; `None` is the string 'Error' that it returns for a NaN or
   * non-finite result.  Without a known action it returns the second operand.
   */
  function Calculate(lib: FloatLib, action: Option<string>, previous: Num, second: Num): (r: Option<Num>)
    ensures action.None? || OperationOf(action.value).None? ==> r == Some(second)
    ensures action.Some? && OperationOf(action.value).Some? && r.Some? ==> r.value.Fin?
    ensures action in {Some("divide"), Some("modulo")} && second == Zero ==> r.None?
    ensures (action.Some? && OperationOf(action.value).Some? && action != Some("power")
             && previous.Fin? && second.Fin? && second != Zero) ==> r.Some?
    ensures action.Some? && OperationOf(action.value).Some? ==>
              var v := Operate(lib, OperationOf(action.value).value, previous, second);
              (r.Some? <==> v.Fin?) && (r.Some? ==> r.value == v)
  {
    if action.Some? && OperationOf(action.value).Some? then
      var result := Operate(lib, OperationOf(action.value).value, previous, second);
      if result.Fin? then Some(result) else None
    else
      Some(second)
  }

  datatype State = State(display: string, previous: Option<Num>, operator: Option<string>, shouldReset: bool)

  /** The state at load time, and after `clearAll`. */
  const Initial: State := State("0", None, None, false)

  /** The state `handleError` leaves behind. */
  const Failed: State := State(ErrorText, None, None, true)

  /**
   * What the handlers keep true: an operator is pending exactly when a first
   * operand is stored, and the Error display has neither and waits for a fresh entry.
   */
  ghost predicate Consistent(s: State) {
    && (s.operator.Some? <==> s.previous.Some?)
    && (s.display == ErrorText ==> s.previous.None? && s.shouldReset)
    && ('E' in s.display ==> s.display == ErrorText)
  }

  /** The keys `handleNumber` is called with: one decimal digit, or ".". */
  predicate IsKey(value: string) {
    value == "." || (|value| == 1 && '0' <= value[0] <= '9')
  }

  /**
   * A library whose `toString` never prints a capital E (JavaScript writes
   * exponents with a small e), so that no formatted number reads "Error".
   */
  ghost predicate ShowsNoError(lib: FloatLib) {
    forall x :: 'E' !in lib.show(x)
  }

  /** `handleNumber(value)` */
  function NumberEntered(s: State, value: string): (r: State)
    ensures s.display == ErrorText ==> r.previous.None? && r.operator.None?
    ensures s.display != ErrorText ==> r.previous == s.previous && r.operator == s.operator
    ensures !r.shouldReset
    ensures s.shouldReset ==> r.display == if value == "." then "0." else value
    ensures value == "." && !s.shouldReset && '.' in s.display ==> r == s
    ensures !s.shouldReset && s.display != ErrorText ==> r.display == Appended(s.display, value)
    ensures !s.shouldReset && s.display == ErrorText ==> r.display == Appended("0", value)
  {
    var s := if s.display == ErrorText then s.(display := "0", previous := None, operator := None) else s;
    if s.shouldReset then
      s.(display := if value == "." then "0." else value, shouldReset := false)
    else
      s.(display := Appended(s.display, value))
  }

  /**
   * The display after a key that continues the current entry: a point is
   * appended only when there is none yet, and a digit replaces a bare "0" or
   * is appended.
   */
  function Appended(display: string, value: string): (r: string)
    ensures value == "." ==> (r == display <==> '.' in display)
    ensures value == "." && '.' !in display ==> r == display + "."
    ensures value != "." && display == "0" ==> r == value
    ensures value != "." && display != "0" ==> r == display + value
  {
    if value == "." then
      if '.' in display then display else display + "."
    else
      if display == "0" then value else display + value
  }

  /**
   * A digit or point key continuing an entry never produces the word Error,
   * never adds a second decimal point and never adds a capital E.
   */
  lemma {:induction false} AppendedFacts(d: string, value: string)
    requires IsKey(value) && d != ErrorText
    ensures Appended(d, value) != ErrorText
    ensures Dots(d) <= 1 ==> Dots(Appended(d, value)) <= 1
    ensures 'E' in Appended(d, value) ==> 'E' in d
  {
    if value == "." {
      if '.' !in d {
        assert multiset(d + ".") == multiset(d) + multiset{'.'};
        assert (d + ".")[|d|] == '.';
      }
    } else if d != "0" {
      assert multiset(d + value) == multiset(d) + multiset(value);
      assert (d + value)[|d|] == value[0];
      assert ErrorText[4] == 'r';
    }
  }

  /**
   * A digit or point key always leaves the Error state, and never gives the
   * display a second decimal point.
   */
  lemma {:induction false} NumberKeyFacts(s: State, value: string)
    requires IsKey(value)
    ensures NumberEntered(s, value).display != ErrorText
    ensures Dots(s.display) <= 1 ==> Dots(NumberEntered(s, value).display) <= 1
    ensures 'E' in NumberEntered(s, value).display ==> 'E' in s.display
  {
    if !s.shouldReset {
      var d := if s.display == ErrorText then "0" else s.display;
      AppendedFacts(d, value);
      assert Dots("0") == 0;
    } else {
      assert value == "." || value[0] != 'E';
      assert multiset("0.")['.'] == 1;
    }
  }

  /**
   * `setOperator(action)`: no effect on the Error display; otherwise the
   * displayed number becomes the first operand, or, when a second operand has
   * been typed, the pending operation is carried out first and its result
   * becomes both the first operand and the display.
   */
  function OperatorSet(lib: FloatLib, s: State, action: string): (r: State)
    ensures s.display == ErrorText ==> r == s
    ensures s.display != ErrorText ==> r == Failed || (r.operator == Some(action) && r.previous.Some? && r.shouldReset)
    ensures s.display != ErrorText && s.previous.None? ==>
              r == s.(previous := Some(lib.parse(s.display)), operator := Some(action), shouldReset := true)
    ensures s.display != ErrorText && s.previous.Some? && s.shouldReset ==> r == s.(operator := Some(action))
    ensures s.display != ErrorText && s.previous.Some? && !s.shouldReset ==>
              match Calculate(lib, s.operator, s.previous.value, lib.parse(s.display))
              case None => r == Failed
              case Some(v) => r == State(FormatResult(lib, v), Some(v), Some(action), true)
  {
    if s.display == ErrorText then s
    else
      var numericValue := lib.parse(s.display);
      if s.previous.None? then
        s.(previous := Some(numericValue), operator := Some(action), shouldReset := true)
      else if !s.shouldReset then
        match Calculate(lib, s.operator, s.previous.value, numericValue)
        case None => Failed
        case Some(v) => State(FormatResult(lib, v), Some(v), Some(action), true)
      else
        s.(operator := Some(action))
  }

  /** Nothing to evaluate: no operator, no first operand, or no second operand typed yet. */
  predicate NothingToEvaluate(s: State) {
    s.operator.None? || s.previous.None? || s.shouldReset
  }

  /** `evaluate()`, the equals key. */
  function Evaluated(lib: FloatLib, s: State): (r: State)
    ensures r == s <==> NothingToEvaluate(s)
    ensures r != s ==> r.operator.None? && r.previous.None? && r.shouldReset
    ensures !NothingToEvaluate(s) && Calculate(lib, s.operator, s.previous.value, lib.parse(s.display)).None? ==>
              r == Failed
    ensures !NothingToEvaluate(s) && Calculate(lib, s.operator, s.previous.value, lib.parse(s.display)).Some? ==>
              r == State(FormatResult(lib, Calculate(lib, s.operator, s.previous.value, lib.parse(s.display)).value), None, None, true)
  {
    if NothingToEvaluate(s) then s
    else
      match Calculate(lib, s.operator, s.previous.value, lib.parse(s.display))
      case None => Failed
      case Some(v) => State(FormatResult(lib, v), None, None, true)
  }

  /** `clearEntry()` */
  function EntryCleared(s: State): (r: State)
    ensures s.display == ErrorText ==> r == Initial
    ensures s.display != ErrorText ==> r.display == "0" && !r.shouldReset
    ensures s.display != ErrorText ==> r.previous == s.previous && r.operator == s.operator
  {
    if s.display == ErrorText then Initial else s.(display := "0", shouldReset := false)
  }

  /** `toggleSign()` */
  function SignToggled(s: State): (r: State)
    ensures s.display in {"0", ErrorText} ==> r == s
    ensures r == s.(display := r.display)
    ensures s.display !in {"0", ErrorText} ==>
              if |s.display| > 0 && s.display[0] == '-' then "-" + r.display == s.display
              else r.display == "-" + s.display
  {
    if s.display == "0" || s.display == ErrorText then s else s.(display := Toggled(s.display))
  }

  /** A leading '-' taken off, or put on. */
  function Toggled(d: string): (r: string)
    ensures |d| > 0 && d[0] == '-' ==> "-" + r == d
    ensures !(|d| > 0 && d[0] == '-') ==> r == "-" + d
  {
    if |d| > 0 && d[0] == '-' then d[1..] else "-" + d
  }

  /** `applyPercent()` */
  function PercentApplied(lib: FloatLib, s: State): (r: State)
    ensures s.display == ErrorText ==> r == s
    ensures r.previous == s.previous && r.operator == s.operator
    ensures s.display != ErrorText && lib.parse(s.display).NaN? ==> r == s.(display := "0")
    ensures s.display != ErrorText && !lib.parse(s.display).NaN? ==>
              r == s.(display := FormatResult(lib, Div(lib.parse(s.display), Fin(100.0))), shouldReset := false)
  {
    if s.display == ErrorText then s
    else
      var number := lib.parse(s.display);
      if number.NaN? then s.(display := "0")
      else s.(display := FormatResult(lib, Div(number, Fin(100.0))), shouldReset := false)
  }

  /** The pending-operation text `updateDisplay` writes above the display. */
  function HistoryPreview(lib: FloatLib, s: State): (r: string)
    ensures r != "" <==> s.previous.Some? && s.operator.Some? && OperationOf(s.operator.value).Some?
    ensures r != "" ==> r == lib.show(s.previous.value) + " " + OperatorSymbol(s.operator.value)
  {
    var symbol := if s.operator.Some? then OperatorSymbol(s.operator.value) else "";
    if s.previous.Some? && symbol != "" then lib.show(s.previous.value) + " " + symbol else ""
  }

  /** The input events the handlers respond to. */
  datatype Event =
    | NumberKey(value: string)
    | OperatorKey(action: string)
    | EqualsKey
    | ClearKey
    | ClearEntryKey
    | SignKey
    | PercentKey

  function Step(lib: FloatLib, s: State, e: Event): State {
    match e
    case NumberKey(value) => NumberEntered(s, value)
    case OperatorKey(action) => OperatorSet(lib, s, action)
    case EqualsKey => Evaluated(lib, s)
    case ClearKey => Initial
    case ClearEntryKey => EntryCleared(s)
    case SignKey => SignToggled(s)
    case PercentKey => PercentApplied(lib, s)
  }

  predicate WellFormed(e: Event) {
    e.NumberKey? ==> IsKey(e.value)
  }

  function Run(lib: FloatLib, s: State, events: seq<Event>): State
    decreases |events|
  {
    if |events| == 0 then s else Run(lib, Step(lib, s, events[0]), events[1..])
  }

  // ---------------------------------------------------------------------------
  // Properties of the transitions
  // ---------------------------------------------------------------------------

  /** Every handler keeps `Consistent`. */
  lemma {:induction false} StepKeepsConsistent(lib: FloatLib, s: State, e: Event)
    requires ShowsNoError(lib) && WellFormed(e) && Consistent(s)
    ensures Consistent(Step(lib, s, e))
  {
    match e
    case NumberKey(value) =>
      NumberKeyFacts(s, value);
    case OperatorKey(action) =>
      if s.display != ErrorText && s.previous.Some? && !s.shouldReset {
        var v := Calculate(lib, s.operator, s.previous.value, lib.parse(s.display));
        if v.Some? {
          assert 'E' !in FormatResult(lib, v.value) && ErrorText[0] == 'E';
        }
      }
    case EqualsKey =>
      if !NothingToEvaluate(s) {
        var v := Calculate(lib, s.operator, s.previous.value, lib.parse(s.display));
        if v.Some? {
          assert 'E' !in FormatResult(lib, v.value) && ErrorText[0] == 'E';
        }
      }
    case SignKey =>
      SignKeepsNoE(s);
    case PercentKey =>
      if s.display != ErrorText && !lib.parse(s.display).NaN? {
        assert 'E' !in FormatResult(lib, Div(lib.parse(s.display), Fin(100.0))) && ErrorText[0] == 'E';
      }
    case ClearKey =>
    case ClearEntryKey =>
  }

  /** Toggling the sign neither adds nor removes a capital E. */
  lemma SignKeepsNoE(s: State)
    ensures 'E' in SignToggled(s).display <==> 'E' in s.display
  {
    var d := s.display;
    if d !in {"0", ErrorText} && |d| > 0 && d[0] == '-' {
      assert d == [d[0]] + d[1..];
    }
    if d !in {"0", ErrorText} {
      assert multiset(Toggled(d)) == multiset(d) + multiset{'-'} || multiset(d) == multiset(Toggled(d)) + multiset{'-'};
    }
  }

  /** From the initial state, every sequence of well-formed events keeps `Consistent`. */
  lemma {:induction false} RunKeepsConsistent(lib: FloatLib, s: State, events: seq<Event>)
    requires ShowsNoError(lib) && Consistent(s)
    requires forall i :: 0 <= i < |events| ==> WellFormed(events[i])
    ensures Consistent(Run(lib, s, events))
    decreases |events|
  {
    if |events| > 0 {
      StepKeepsConsistent(lib, s, events[0]);
      RunKeepsConsistent(lib, Step(lib, s, events[0]), events[1..]);
    }
  }

  /**
   * The Error state is left only by a digit or point, clear or clear entry;
   * every other event leaves it exactly as it is.
   */
  lemma {:induction false} ErrorExits(lib: FloatLib, s: State, e: Event)
    requires s.display == ErrorText && Consistent(s) && WellFormed(e)
    ensures Step(lib, s, e).display == ErrorText <==> !(e.NumberKey? || e.ClearKey? || e.ClearEntryKey?)
    ensures Step(lib, s, e).display == ErrorText ==> Step(lib, s, e) == s
  {
  }

  /**
   * The Error state is entered only by an operator or equals key whose
   * calculation fails, and then exactly as `handleError` leaves it.
   */
  lemma {:induction false} ErrorEntries(lib: FloatLib, s: State, e: Event)
    requires ShowsNoError(lib) && WellFormed(e) && Consistent(s)
    requires s.display != ErrorText && Step(lib, s, e).display == ErrorText
    ensures e.OperatorKey? || e.EqualsKey?
    ensures Step(lib, s, e) == Failed
    ensures s.previous.Some? && !s.shouldReset
    ensures Calculate(lib, s.operator, s.previous.value, lib.parse(s.display)).None?
  {
    match e
    case NumberKey(value) =>
      NumberKeyFacts(s, value);
    case SignKey =>
      SignKeepsNoE(s);
    case _ =>
  }

  /** A second equals right after the first changes nothing. */
  lemma EvaluateTwice(lib: FloatLib, s: State)
    ensures Evaluated(lib, Evaluated(lib, s)) == Evaluated(lib, s)
  {
  }

  /**
   * Divide and modulo by zero end in the Error state whatever the first
   * operand, zero included.
   */
  lemma ZeroDivisorFails(lib: FloatLib, s: State, action: string)
    requires s.operator in {Some("divide"), Some("modulo")} && s.previous.Some? && !s.shouldReset
    requires lib.parse(s.display) == Zero
    ensures Evaluated(lib, s) == Failed
    ensures s.display != ErrorText ==> OperatorSet(lib, s, action) == Failed
  {
  }

  /**
   * Clear entry on the Error display is clear all; elsewhere it resets the
   * display and keeps the pending operation.
   */
  lemma ClearEntryVersusClearAll(lib: FloatLib, s: State)
    ensures s.display == ErrorText ==> Step(lib, s, ClearEntryKey) == Step(lib, s, ClearKey)
    ensures s.display != ErrorText ==>
              Step(lib, s, ClearEntryKey) == Step(lib, s, ClearKey).(previous := s.previous, operator := s.operator)
  {
  }

  /** Two operator keys in a row: the second only replaces the pending action. */
  lemma RepeatedOperatorReplaces(lib: FloatLib, s: State, first: string, second: string)
    requires ShowsNoError(lib) && Consistent(s)
    requires s.display != ErrorText && OperatorSet(lib, s, first) != Failed
    ensures OperatorSet(lib, OperatorSet(lib, s, first), second) == OperatorSet(lib, s, first).(operator := Some(second))
  {
  }

  /**
   * Toggling the sign twice restores the display, except on "-0", "-Error"
   * and displays that start with two minus signs.
   */
  lemma {:induction false} ToggleTwice(s: State)
    ensures SignToggled(SignToggled(s)) == s <==>
              s.display != "-0" && s.display != "-Error" && !(|s.display| >= 2 && s.display[..2] == "--")
  {
    var d := s.display;
    if d !in {"0", ErrorText} {
      var t := Toggled(d);
      if |d| > 0 && d[0] == '-' {
        assert d == "-" + t;
        if t in {"0", ErrorText} {
          assert SignToggled(SignToggled(s)).display == t != d;
          assert d == "-0" || d == "-Error";
        } else if |t| > 0 && t[0] == '-' {
          assert |Toggled(t)| < |d|;
          assert d[..2] == "--";
        } else {
          assert Toggled(t) == d;
          assert |d| >= 2 ==> d[1] == t[0];
          assert d != "-0" && d != "-Error";
        }
      } else {
        assert t[0] == '-' && t[1..] == d;
        assert t != "0" && t != ErrorText;
        assert Toggled(t) == d;
        assert SignToggled(SignToggled(s)) == s;
        assert |d| >= 2 ==> d[0] != '-';
        assert d != "-0" && d != "-Error";
      }
    } else {
      assert d == "0" || d == ErrorText;
      assert |d| >= 2 ==> d[0] == 'E';
    }
  }

  /**
   * On a consistent state the sign key is its own inverse, except on "-0"
   * and on a display that already starts with two minus signs.
   */
  lemma ToggleTwiceRestores(s: State)
    requires Consistent(s)
    requires s.display != "-0" && !(|s.display| >= 2 && s.display[..2] == "--")
    ensures SignToggled(SignToggled(s)) == s
  {
    assert "-Error"[1] == 'E';
    ToggleTwice(s);
  }

  // ---------------------------------------------------------------------------
  // Typing a number
  // ---------------------------------------------------------------------------

  predicate IsKeyChar(c: char) {
    c == '.' || '0' <= c <= '9'
  }

  /**
   * The display after typing the keys `t` on a cleared display: the keys
   * without their leading zeros, with "0" put back in front of a leading
   * point, or "0" when nothing but zeros was typed.
   */
  function Typed(t: string): string {
    var z := LeadingZeros(t);
    if z == |t| then "0" else if t[z] == '.' then "0" + t[z..] else t[z..]
  }

  /** `handleNumber` once per key of `t`. */
  function Typing(s: State, t: string): State
    decreases |t|
  {
    if |t| == 0 then s else NumberEntered(Typing(s, t[..|t| - 1]), [t[|t| - 1]])
  }

  /**
   * Typing digits and at most one point on a cleared display shows exactly
   * what was typed, leading zeros absorbed; nothing but the display changes.
   */
  lemma {:induction false} TypingShowsKeys(s: State, t: string)
    requires s.display == "0" && !s.shouldReset
    requires forall i :: 0 <= i < |t| ==> IsKeyChar(t[i])
    requires Dots(t) <= 1
    ensures Typing(s, t) == s.(display := Typed(t))
    decreases |t|
  {
    if |t| > 0 {
      var u, c := t[..|t| - 1], t[|t| - 1];
      assert t == u + [c];
      assert multiset(t) == multiset(u) + multiset{c};
      TypingShowsKeys(s, u);
      TypedAppend(s, u, c);
    }
  }

  /** One more key on a display that shows `Typed(u)` shows `Typed(u + [c])`. */
  lemma {:induction false} TypedAppend(s: State, u: string, c: char)
    requires !s.shouldReset
    requires forall i :: 0 <= i < |u| ==> IsKeyChar(u[i])
    requires IsKeyChar(c) && Dots(u + [c]) <= 1
    ensures NumberEntered(s.(display := Typed(u)), [c]) == s.(display := Typed(u + [c]))
  {
    assert multiset(u + [c]) == multiset(u) + multiset{c};
    LeadingZerosAppend(u, c);
    var z := LeadingZeros(u);
    if z < |u| {
      TypedAppendAfterDigits(u, c, z);
    } else {
      assert Typed(u) == "0";
    }
  }

  lemma {:induction false} TypedAppendAfterDigits(u: string, c: char, z: nat)
    requires z == LeadingZeros(u) == LeadingZeros(u + [c]) < |u|
    requires c == '.' ==> '.' !in u
    requires forall i :: 0 <= i < |u| ==> IsKeyChar(u[i])
    ensures Typed(u) != ErrorText && Appended(Typed(u), [c]) == Typed(u + [c])
  {
    var t := u + [c];
    assert t[z..] == u[z..] + [c];
    assert t[z] == u[z];
    var d := Typed(u);
    assert d[0] == '0' || d[0] == u[z];
    assert u[z] != '0' && IsKeyChar(u[z]);
    if c == '.' {
      assert '.' !in u[z..] by {
        assert forall i :: 0 <= i < |u[z..]| ==> u[z..][i] == u[z + i];
      }
      assert '.' !in d;
    } else {
      assert d != "0";
      assert [c] != ".";
      if u[z] == '.' {
        assert "0" + t[z..] == ("0" + u[z..]) + [c];
      } else {
        assert Typed(t) == t[z..] == d + [c];
      }
      assert Appended(d, [c]) == d + [c];
    }
  }

  // ---------------------------------------------------------------------------
  // Scenarios
  // ---------------------------------------------------------------------------

  /** "1 + 2 +" carries out the first addition before the second is pending. */
  lemma ChainedOperators(lib: FloatLib)
    requires lib.parse("1") == Fin(1.0) && lib.parse("2") == Fin(2.0)
    ensures Run(lib, Initial, [NumberKey("1"), OperatorKey("add"), NumberKey("2"), OperatorKey("add")])
            == State(lib.show(Fin(3.0)), Some(Fin(3.0)), Some("add"), true)
  {
    Round10Whole(3);
  }

  /** "7 / 0 =" ends in Error. */
  lemma DivideByZeroScenario(lib: FloatLib)
    requires lib.parse("7") == Fin(7.0) && lib.parse("0") == Zero
    ensures Run(lib, Initial, [NumberKey("7"), OperatorKey("divide"), NumberKey("0"), EqualsKey]) == Failed
  {
  }

  // ---------------------------------------------------------------------------
  // The engine with its state in place
  // ---------------------------------------------------------------------------

  class Calculator {
    const lib: FloatLib
    var currentValue: string
    var previousValue: Option<Num>
    var currentOperator: Option<string>
    var shouldReset: bool

    function Snapshot(): State
      reads this
    {
      State(currentValue, previousValue, currentOperator, shouldReset)
    }

    constructor (lib: FloatLib)
      ensures this.lib == lib && Snapshot() == Initial
    {
      this.lib := lib;
      currentValue := "0";
      previousValue := None;
      currentOperator := None;
      shouldReset := false;
    }

    method HandleNumber(value: string)
      modifies this
      ensures Snapshot() == NumberEntered(old(Snapshot()), value)
    {
      if currentValue == ErrorText {
        currentValue := "0";
        previousValue := None;
        currentOperator := None;
      }
      if shouldReset {
        currentValue := if value == "." then "0." else value;
        shouldReset := false;
        return;
      }
      if value == "." {
        if '.' !in currentValue {
          currentValue := currentValue + ".";
        }
      } else {
        currentValue := if currentValue == "0" then value else currentValue + value;
      }
    }

    method SetOperator(action: string)
      modifies this
      ensures Snapshot() == OperatorSet(lib, old(Snapshot()), action)
    {
      if currentValue == ErrorText {
        return;
      }
      var numericValue := lib.parse(currentValue);
      if previousValue.None? {
        previousValue := Some(numericValue);
      } else if !shouldReset {
        var result := Calculate(lib, currentOperator, previousValue.value, numericValue);
        if result.None? {
          HandleError();
          return;
        }
        previousValue := result;
        currentValue := FormatResult(lib, result.value);
      }
      currentOperator := Some(action);
      shouldReset := true;
    }

    method Evaluate()
      modifies this
      ensures Snapshot() == Evaluated(lib, old(Snapshot()))
    {
      if currentOperator.None? || previousValue.None? || shouldReset {
        return;
      }
      var secondOperand := lib.parse(currentValue);
      var result := Calculate(lib, currentOperator, previousValue.value, secondOperand);
      if result.None? {
        HandleError();
        return;
      }
      currentValue := FormatResult(lib, result.value);
      previousValue := None;
      currentOperator := None;
      shouldReset := true;
    }

    method ClearAll()
      modifies this
      ensures Snapshot() == Initial
    {
      currentValue := "0";
      previousValue := None;
      currentOperator := None;
      shouldReset := false;
    }

    method ClearEntry()
      modifies this
      ensures Snapshot() == EntryCleared(old(Snapshot()))
    {
      if currentValue == ErrorText {
        ClearAll();
        return;
      }
      currentValue := "0";
      shouldReset := false;
    }

    method HandleError()
      modifies this
      ensures Snapshot() == Failed
    {
      currentValue := ErrorText;
      previousValue := None;
      currentOperator := None;
      shouldReset := true;
    }

    method ToggleSign()
      modifies this
      ensures Snapshot() == SignToggled(old(Snapshot()))
    {
      if currentValue == "0" || currentValue == ErrorText {
        return;
      }
      currentValue := if |currentValue| > 0 && currentValue[0] == '-' then currentValue[1..] else "-" + currentValue;
    }

    method ApplyPercent()
      modifies this
      ensures Snapshot() == PercentApplied(lib, old(Snapshot()))
    {
      if currentValue == ErrorText {
        return;
      }
      var number := lib.parse(currentValue);
      if number.NaN? {
        currentValue := "0";
        return;
      }
      currentValue := FormatResult(lib, Div(number, Fin(100.0)));
      shouldReset := false;
    }
  }
}
