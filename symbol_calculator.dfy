/**
 * The calculator engine of lines 218-442 of Week4/Calculator/script.js.
 *
 * Its state is the `state` record: the display text, the first operand, the
 * pending operator (a raw symbol: "+", "-", "*", "/", "^" or "%"), the
 * fresh-entry flag, the memory register and a history of finished
 * calculations, most recent first and at most ten long.  Unlike the engine of
 * lines 5-195 it has no Error state: division by zero shows 0, a remainder by
 * zero shows NaN, and a point is appended without checking for another.
 *
 * As in ActionCalculator, the state is modelled as the value `State` with one
 * pure transition per handler, and as the class `Calculator` whose methods
 * update its fields in place and are proved to perform those transitions.
 * Writing memory and history through to localStorage is not modelled.
 */
module SymbolCalculator {
  import opened Wrappers
  import opened JsNumber
  import opened DisplayText

  const HistoryLimit: nat := 10

  datatype State = State(
    display: string,
    previous: Option<Num>,
    operator: Option<string>,
    shouldReset: bool,
    memory: Num,
    history: seq<string>)

  /**
   * `addToHistory(expression)`: the entry goes in front, and when that makes
   * the list longer than ten the oldest entry is dropped.
   */
  function Pushed(history: seq<string>, entry: string): (r: seq<string>)
    ensures |r| > 0 && r[0] == entry
    ensures |r| == if |history| < HistoryLimit then |history| + 1 else |history|
    ensures forall i :: 1 <= i < |r| ==> r[i] == history[i - 1]
  {
    var h := [entry] + history;
    if |h| > HistoryLimit then h[..|h| - 1] else h
  }

  /** The operator symbols `calculate` knows. */
  predicate IsSymbol(op: string) {
    op in {"+", "-", "*", "/", "^", "%"}
  }

  /**
   * The `switch` of `calculate`: `None` for an unknown symbol, on which it
   * returns without changing anything.  A zero divisor gives 0; a remainder by
   * zero is left to `%`, which gives NaN.
   */
  function Apply(lib: FloatLib, op: string, prev: Num, current: Num): (r: Option<Num>)
    ensures r.Some? <==> IsSymbol(op)
    ensures op == "/" && current == Zero ==> r == Some(Zero)
    ensures op == "%" && current == Zero ==> r == Some(NaN)
    ensures op in {"+", "-", "*"} && prev.Fin? && current.Fin? ==> r.Some? && r.value.Fin?
    ensures prev.Fin? && current.Fin? ==>
              && (op == "+" ==> r == Some(Fin(prev.r + current.r)))
              && (op == "-" ==> r == Some(Fin(prev.r - current.r)))
              && (op == "*" ==> r == Some(Fin(prev.r * current.r)))
              && (op == "/" && current != Zero ==> r == Some(Fin(prev.r / current.r)))
    ensures op == "+" ==> r == Some(Add(prev, current))
    ensures op == "-" ==> r == Some(Sub(prev, current))
    ensures op == "*" ==> r == Some(Mul(prev, current))
    ensures op == "/" && current != Zero ==> r == Some(Div(prev, current))
    ensures op == "%" ==> r == Some(Rem(prev, current))
    ensures op == "^" ==> r == Some(lib.pow(prev, current))
  {
    if op == "+" then Some(Add(prev, current))
    else if op == "-" then Some(Sub(prev, current))
    else if op == "*" then Some(Mul(prev, current))
    else if op == "/" then Some(if current != Zero then Div(prev, current) else Zero)
    else if op == "^" then Some(lib.pow(prev, current))
    else if op == "%" then Some(Rem(prev, current))
    else None
  }

  /** A first operand in arithmetic: JavaScript turns `null` into 0. */
  function ToNumber(v: Option<Num>): Num {
    if v.Some? then v.value else Zero
  }

  /** A first operand in a template literal: `null` prints as "null". */
  function ToText(lib: FloatLib, v: Option<Num>): string {
    if v.Some? then lib.show(v.value) else "null"
  }

  /** The history entry `${prev} ${op} ${current} = ${result}`. */
  function Expression(lib: FloatLib, prev: Option<Num>, op: string, current: Num, result: Num): (r: string)
    ensures |r| == |ToText(lib, prev)| + |op| + |lib.show(current)| + |lib.show(result)| + 5
    ensures r[..|ToText(lib, prev)|] == ToText(lib, prev)
    ensures prev.None? ==> r[..4] == "null"
    ensures r[|r| - |lib.show(result)| - 3 .. |r| - |lib.show(result)|] == " = "
    ensures r[|r| - |lib.show(result)|..] == lib.show(result)
    ensures var k := |ToText(lib, prev)|;
              && r[k..k + |op| + 2] == " " + op + " "
              && r[k + |op| + 2..|r| - |lib.show(result)| - 3] == lib.show(current)
  {
    ToText(lib, prev) + " " + op + " " + lib.show(current) + " = " + lib.show(result)
  }

  /** There is something `calculate` will carry out. */
  predicate Pending(s: State) {
    s.operator.Some? && IsSymbol(s.operator.value)
  }

  /** The result `calculate` computes for a pending operation. */
  function Outcome(lib: FloatLib, s: State): Num
    requires Pending(s)
  {
    Apply(lib, s.operator.value, ToNumber(s.previous), lib.parse(s.display)).value
  }

  /**
   * `calculate()`, the equals key: with a known operator pending, the result is
   * recorded in the history and shown, and the operation is cleared.
   */
  function Calculated(lib: FloatLib, s: State): (r: State)
    ensures !Pending(s) ==> r == s
    ensures Pending(s) ==>
              && r.operator.None? && r.previous.None? && r.shouldReset
              && r.display == lib.show(Outcome(lib, s))
              && r.history == Pushed(s.history, Expression(lib, s.previous, s.operator.value, lib.parse(s.display), Outcome(lib, s)))
    ensures r.memory == s.memory
  {
    if s.operator.None? then s
    else
      var prev := s.previous;
      var current := lib.parse(s.display);
      var op := s.operator.value;
      match Apply(lib, op, ToNumber(prev), current)
      case None => s
      case Some(result) =>
        var expression := Expression(lib, prev, op, current, result);
        s.(history := Pushed(s.history, expression),
           display := lib.show(result), previous := None, operator := None, shouldReset := true)
  }

  /**
   * `setOperator(op)`: a pending operation is carried out first; then the
   * displayed number becomes the first operand of `op`.
   */
  function OperatorSet(lib: FloatLib, s: State, op: string): (r: State)
    ensures r.operator == Some(op) && r.shouldReset
    ensures r.previous == Some(lib.parse(r.display))
    ensures s.operator.None? ==> r == s.(previous := Some(lib.parse(s.display)), operator := Some(op), shouldReset := true)
    ensures s.operator.Some? ==> r.display == Calculated(lib, s).display && r.history == Calculated(lib, s).history
    ensures r.memory == s.memory
  {
    var s := if s.operator.Some? then Calculated(lib, s) else s;
    s.(previous := Some(lib.parse(s.display)), operator := Some(op), shouldReset := true)
  }

  /** `appendNumber(num)` */
  function NumberAppended(s: State, num: string): (r: State)
    ensures r == s.(display := r.display, shouldReset := false)
    ensures s.shouldReset || s.display == "0" ==> r.display == num
    ensures !s.shouldReset && s.display != "0" ==> r.display == s.display + num
  {
    if s.shouldReset then s.(display := num, shouldReset := false)
    else s.(display := if s.display == "0" then num else s.display + num)
  }

  /** `clear()`: memory and history stay. */
  function Cleared(s: State): (r: State)
    ensures r.display == "0" && r.previous.None? && r.operator.None? && !r.shouldReset
    ensures r.memory == s.memory && r.history == s.history
  {
    s.(display := "0", previous := None, operator := None, shouldReset := false)
  }

  /** `deleteLast()`: the display without its last character, or "0" if nothing would be left. */
  function LastDeleted(s: State): (r: State)
    ensures r == s.(display := r.display)
    ensures |s.display| <= 1 ==> r.display == "0"
    ensures |s.display| > 1 ==> r.display + [s.display[|s.display| - 1]] == s.display
  {
    s.(display := if |s.display| <= 1 then "0" else s.display[..|s.display| - 1])
  }

  /** `percent()`: no guard of any kind. */
  function PercentApplied(lib: FloatLib, s: State): (r: State)
    ensures r == s.(display := r.display)
    ensures !lib.parse(s.display).Fin? ==> r.display == lib.show(lib.parse(s.display))
    ensures lib.parse(s.display).Fin? ==> r.display == lib.show(Fin(lib.parse(s.display).r / 100.0))
  {
    s.(display := lib.show(Div(lib.parse(s.display), Fin(100.0))))
  }

  /** `memoryClear()` */
  function MemoryCleared(s: State): (r: State)
    ensures r.memory == Zero
    ensures r == s.(memory := r.memory)
    ensures Consistent(s) ==> Consistent(r)
  {
    s.(memory := Zero)
  }

  /** `memoryRecall()` */
  function MemoryRecalled(lib: FloatLib, s: State): (r: State)
    ensures r.display == lib.show(s.memory) && r.shouldReset
    ensures r == s.(display := r.display, shouldReset := true)
    ensures Consistent(s) ==> Consistent(r)
  {
    s.(display := lib.show(s.memory), shouldReset := true)
  }

  /** `memoryAdd()` */
  function MemoryAdded(lib: FloatLib, s: State): (r: State)
    ensures s.memory.Fin? && lib.parse(s.display).Fin? ==> r.memory == Fin(s.memory.r + lib.parse(s.display).r)
    ensures lib.parse(s.display).NaN? ==> r.memory.NaN?
    ensures s.memory.NaN? ==> r.memory.NaN?
    ensures !(s.memory.Fin? && lib.parse(s.display).Fin?) ==> !r.memory.Fin?
    ensures r.memory == Add(s.memory, lib.parse(s.display))
    ensures r == s.(memory := r.memory, shouldReset := true)
    ensures Consistent(s) ==> Consistent(r)
  {
    s.(memory := Add(s.memory, lib.parse(s.display)), shouldReset := true)
  }

  /** `memorySubtract()` */
  function MemorySubtracted(lib: FloatLib, s: State): (r: State)
    ensures s.memory.Fin? && lib.parse(s.display).Fin? ==> r.memory == Fin(s.memory.r - lib.parse(s.display).r)
    ensures lib.parse(s.display).NaN? ==> r.memory.NaN?
    ensures s.memory.NaN? ==> r.memory.NaN?
    ensures !(s.memory.Fin? && lib.parse(s.display).Fin?) ==> !r.memory.Fin?
    ensures r.memory == Sub(s.memory, lib.parse(s.display))
    ensures r == s.(memory := r.memory, shouldReset := true)
    ensures Consistent(s) ==> Consistent(r)
  {
    s.(memory := Sub(s.memory, lib.parse(s.display)), shouldReset := true)
  }

  /** `clearHistory()` */
  function HistoryCleared(s: State): (r: State)
    ensures |r.history| == 0
    ensures r == s.(history := r.history)
    ensures Consistent(s) ==> Consistent(r)
  {
    s.(history := [])
  }

  /** The input events the handlers respond to. */
  datatype Event =
    | NumberKey(num: string)
    | OperatorKey(op: string)
    | EqualsKey
    | ClearKey
    | DeleteKey
    | PercentKey
    | MemoryClearKey
    | MemoryRecallKey
    | MemoryAddKey
    | MemorySubtractKey
    | ClearHistoryKey

  function Step(lib: FloatLib, s: State, e: Event): State {
    match e
    case NumberKey(num) => NumberAppended(s, num)
    case OperatorKey(op) => OperatorSet(lib, s, op)
    case EqualsKey => Calculated(lib, s)
    case ClearKey => Cleared(s)
    case DeleteKey => LastDeleted(s)
    case PercentKey => PercentApplied(lib, s)
    case MemoryClearKey => MemoryCleared(s)
    case MemoryRecallKey => MemoryRecalled(lib, s)
    case MemoryAddKey => MemoryAdded(lib, s)
    case MemorySubtractKey => MemorySubtracted(lib, s)
    case ClearHistoryKey => HistoryCleared(s)
  }

  function Run(lib: FloatLib, s: State, events: seq<Event>): State
    decreases |events|
  {
    if |events| == 0 then s else Run(lib, Step(lib, s, events[0]), events[1..])
  }

  /** An operator is pending exactly when a first operand is stored, and the history holds at most ten entries. */
  ghost predicate Consistent(s: State) {
    && (s.operator.Some? <==> s.previous.Some?)
    && |s.history| <= HistoryLimit
  }

  // ---------------------------------------------------------------------------
  // Properties of the transitions
  // ---------------------------------------------------------------------------

  /** Every handler keeps `Consistent`. */
  lemma {:induction false} StepKeepsConsistent(lib: FloatLib, s: State, e: Event)
    requires Consistent(s)
    ensures Consistent(Step(lib, s, e))
  {
    match e
    case EqualsKey =>
      if Pending(s) {
        assert |Calculated(lib, s).history| <= HistoryLimit;
      }
    case OperatorKey(op) =>
      assert |Calculated(lib, s).history| <= HistoryLimit;
    case _ =>
  }

  /** Every sequence of events keeps `Consistent`: in particular the history never exceeds ten entries. */
  lemma {:induction false} RunKeepsConsistent(lib: FloatLib, s: State, events: seq<Event>)
    requires Consistent(s)
    ensures Consistent(Run(lib, s, events))
    decreases |events|
  {
    if |events| > 0 {
      StepKeepsConsistent(lib, s, events[0]);
      RunKeepsConsistent(lib, Step(lib, s, events[0]), events[1..]);
    }
  }

  /** `addToHistory` once per entry of `entries`, in order. */
  function PushedAll(history: seq<string>, entries: seq<string>): seq<string>
    decreases |entries|
  {
    if |entries| == 0 then history else Pushed(PushedAll(history, entries[..|entries| - 1]), entries[|entries| - 1])
  }

  /**
   * Starting from an empty history, the history holds the last ten entries
   * added, the most recent first.
   */
  lemma {:induction false} HistoryNewestFirst(entries: seq<string>)
    ensures |PushedAll([], entries)| == if |entries| < HistoryLimit then |entries| else HistoryLimit
    ensures forall i :: 0 <= i < |PushedAll([], entries)| ==> PushedAll([], entries)[i] == entries[|entries| - 1 - i]
    decreases |entries|
  {
    if |entries| > 0 {
      var n := |entries|;
      var before := entries[..n - 1];
      HistoryNewestFirst(before);
      var h := PushedAll([], before);
      var r := PushedAll([], entries);
      assert r == Pushed(h, entries[n - 1]);
      forall i | 1 <= i < |r|
        ensures r[i] == entries[n - 1 - i]
      {
        assert r[i] == h[i - 1] == before[n - 2 - (i - 1)];
      }
    }
  }

  /** A second equals right after the first changes nothing. */
  lemma CalculateTwice(lib: FloatLib, s: State)
    ensures Calculated(lib, Calculated(lib, s)) == Calculated(lib, s)
  {
  }

  /** Dividing by zero shows 0, whatever the first operand. */
  lemma DivideByZeroShowsZero(lib: FloatLib, s: State)
    requires s.operator == Some("/") && lib.parse(s.display) == Zero
    ensures Calculated(lib, s).display == lib.show(Zero)
  {
  }

  /** A remainder by zero shows NaN, whatever the first operand. */
  lemma RemainderByZeroShowsNaN(lib: FloatLib, s: State)
    requires s.operator == Some("%") && lib.parse(s.display) == Zero
    ensures Calculated(lib, s).display == lib.show(NaN)
  {
  }

  /**
   * Two operator keys in a row carry out the first operation on the displayed
   * number twice and record it, instead of only replacing the operator.
   */
  lemma RepeatedOperatorCalculates(lib: FloatLib, s: State, first: string, second: string)
    requires s.operator.None? && IsSymbol(first)
    ensures var p := lib.parse(s.display);
            var r := OperatorSet(lib, OperatorSet(lib, s, first), second);
            && r.display == lib.show(Apply(lib, first, p, p).value)
            && r.history == Pushed(s.history, Expression(lib, Some(p), first, p, Apply(lib, first, p, p).value))
  {
  }

  /** A key typed after a non-empty entry is taken back by delete. */
  lemma AppendThenDelete(s: State, num: string)
    requires !s.shouldReset && |s.display| > 0 && |num| == 1
    ensures LastDeleted(NumberAppended(s, num)) == s
  {
    if s.display != "0" {
      assert (s.display + num)[..|s.display|] == s.display;
    }
  }

  /** Memory plus then memory minus on the same finite display restores a finite memory. */
  lemma {:induction false} MemoryAddThenSubtract(lib: FloatLib, s: State)
    requires s.memory.Fin? && lib.parse(s.display).Fin?
    ensures MemorySubtracted(lib, MemoryAdded(lib, s)).memory == s.memory
  {
    var x := lib.parse(s.display).r;
    assert Add(s.memory, Fin(x)) == Fin(s.memory.r + x);
    assert Sub(Fin(s.memory.r + x), Fin(x)) == Fin(s.memory.r + x + -x);
  }

  // ---------------------------------------------------------------------------
  // Typing a number
  // ---------------------------------------------------------------------------

  /**
   * The display after typing `t` on a cleared display: the keys without their
   * leading zeros, or "0" when nothing but zeros was typed.  Nothing puts a
   * "0" in front of a point or refuses a second point.
   */
  function Typed(t: string): string {
    var z := LeadingZeros(t);
    if z == |t| then "0" else t[z..]
  }

  /** `appendNumber` once per key of `t`. */
  function Typing(s: State, t: string): State
    decreases |t|
  {
    if |t| == 0 then s else NumberAppended(Typing(s, t[..|t| - 1]), [t[|t| - 1]])
  }

  lemma {:induction false} TypingShowsKeys(s: State, t: string)
    requires s.display == "0" && !s.shouldReset
    ensures Typing(s, t) == s.(display := Typed(t))
    decreases |t|
  {
    if |t| > 0 {
      var u, c := t[..|t| - 1], t[|t| - 1];
      assert t == u + [c];
      TypingShowsKeys(s, u);
      LeadingZerosAppend(u, c);
      var z := LeadingZeros(u);
      if z < |u| {
        assert t[z..] == u[z..] + [c];
        assert Typed(u)[0] != '0';
      }
    }
  }

  /** Typing ".5." shows ".5.": no leading zero and two points. */
  lemma PointsUnchecked(s: State)
    requires s.display == "0" && !s.shouldReset
    ensures Typing(s, ".5.").display == ".5."
    ensures Dots(Typing(s, ".5.").display) == 2
  {
    TypingShowsKeys(s, ".5.");
    assert LeadingZeros(".5.") == 0;
    assert ".5." == ['.'] + ['5'] + ['.'];
  }

  // ---------------------------------------------------------------------------
  // Scenarios
  // ---------------------------------------------------------------------------

  /** "5 + 3 =" shows 8 and records "5 + 3 = 8" first in the history. */
  lemma AdditionScenario(lib: FloatLib, s: State)
    requires s.display == "0" && !s.shouldReset && s.operator.None?
    requires lib.parse("5") == Fin(5.0) && lib.parse("3") == Fin(3.0)
    requires lib.show(Fin(5.0)) == "5" && lib.show(Fin(3.0)) == "3" && lib.show(Fin(8.0)) == "8"
    ensures var r := Run(lib, s, [NumberKey("5"), OperatorKey("+"), NumberKey("3"), EqualsKey]);
            r.display == "8" && r.history[0] == "5 + 3 = 8"
  {
  }

  /** Memory plus on "4" from a cleared memory, then memory recall, shows "4". */
  lemma MemoryScenario(lib: FloatLib, s: State)
    requires s.display == "4" && s.memory == Zero
    requires lib.parse("4") == Fin(4.0) && lib.show(Fin(4.0)) == "4"
    ensures var r := Run(lib, s, [MemoryAddKey, MemoryRecallKey]);
            r.display == "4" && r.memory == Fin(4.0) && r.shouldReset
  {
  }

  // ---------------------------------------------------------------------------
  // The engine with its state in place
  // ---------------------------------------------------------------------------

  class Calculator {
    const lib: FloatLib
    var display: string
    var previousValue: Option<Num>
    var currentOperator: Option<string>
    var shouldReset: bool
    var memory: Num
    var history: seq<string>

    function Snapshot(): State
      reads this
    {
      State(display, previousValue, currentOperator, shouldReset, memory, history)
    }

    /**
     * The state at load time: memory is `parseFloat` of the stored text, or 0
     * when that is NaN or 0; history is the stored list, or empty.
     */
    constructor (lib: FloatLib, storedMemory: Option<string>, storedHistory: Option<seq<string>>)
      ensures this.lib == lib
      ensures Snapshot().display == "0" && !shouldReset
      ensures previousValue.None? && currentOperator.None?
      ensures var m := lib.parse(if storedMemory.Some? then storedMemory.value else "null");
              memory == if m.NaN? || m == Zero then Zero else m
      ensures history == if storedHistory.Some? then storedHistory.value else []
    {
      this.lib := lib;
      display := "0";
      previousValue := None;
      currentOperator := None;
      shouldReset := false;
      var m := lib.parse(if storedMemory.Some? then storedMemory.value else "null");
      memory := if m.NaN? || m == Zero then Zero else m;
      history := if storedHistory.Some? then storedHistory.value else [];
    }

    method AppendNumber(num: string)
      modifies this
      ensures Snapshot() == NumberAppended(old(Snapshot()), num)
    {
      if shouldReset {
        display := num;
        shouldReset := false;
      } else {
        display := if display == "0" then num else display + num;
      }
    }

    method SetOperator(op: string)
      modifies this
      ensures Snapshot() == OperatorSet(lib, old(Snapshot()), op)
    {
      if currentOperator.Some? {
        Calculate();
      }
      previousValue := Some(lib.parse(display));
      currentOperator := Some(op);
      shouldReset := true;
    }

    method Calculate()
      modifies this
      ensures Snapshot() == Calculated(lib, old(Snapshot()))
    {
      if currentOperator.None? {
        return;
      }
      var prev := previousValue;
      var current := lib.parse(display);
      var op := currentOperator.value;
      var outcome := Apply(lib, op, ToNumber(prev), current);
      if outcome.None? {
        return;
      }
      var result := outcome.value;
      var expression := Expression(lib, prev, op, current, result);
      AddToHistory(expression);
      display := lib.show(result);
      previousValue := None;
      currentOperator := None;
      shouldReset := true;
    }

    method Clear()
      modifies this
      ensures Snapshot() == Cleared(old(Snapshot()))
    {
      display := "0";
      previousValue := None;
      currentOperator := None;
      shouldReset := false;
    }

    method DeleteLast()
      modifies this
      ensures Snapshot() == LastDeleted(old(Snapshot()))
    {
      var rest := if |display| > 0 then display[..|display| - 1] else "";
      display := if rest == "" then "0" else rest;
    }

    method Percent()
      modifies this
      ensures Snapshot() == PercentApplied(lib, old(Snapshot()))
    {
      display := lib.show(Div(lib.parse(display), Fin(100.0)));
    }

    method MemoryClear()
      modifies this
      ensures Snapshot() == MemoryCleared(old(Snapshot()))
    {
      memory := Zero;
    }

    method MemoryRecall()
      modifies this
      ensures Snapshot() == MemoryRecalled(lib, old(Snapshot()))
    {
      display := lib.show(memory);
      shouldReset := true;
    }

    method MemoryAdd()
      modifies this
      ensures Snapshot() == MemoryAdded(lib, old(Snapshot()))
    {
      memory := Add(memory, lib.parse(display));
      shouldReset := true;
    }

    method MemorySubtract()
      modifies this
      ensures Snapshot() == MemorySubtracted(lib, old(Snapshot()))
    {
      memory := Sub(memory, lib.parse(display));
      shouldReset := true;
    }

    /** `unshift`, then `pop` when the list has grown past ten. */
    method AddToHistory(expression: string)
      modifies this
      ensures Snapshot() == old(Snapshot()).(history := Pushed(old(history), expression))
    {
      history := [expression] + history;
      if |history| > HistoryLimit {
        history := history[..|history| - 1];
      }
    }

    method ClearHistory()
      modifies this
      ensures Snapshot() == HistoryCleared(old(Snapshot()))
    {
      history := [];
    }
  }
}
