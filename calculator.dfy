/**
 * The operand-stack engine of the calculator activity.
 *
 * The activity keeps a stack of numbers.  The equal button pushes the entered
 * number, the four arithmetic buttons combine the two topmost numbers, the
 * scientific buttons replace the topmost number by its sine, cosine, tangent
 * (of an angle in degrees) or square root, and clear-all empties the stack.
 * Every operation either succeeds or leaves the stack exactly as it found it.
 *
 * Each operation is given twice: as a pure function from the old stack to a
 * Transition (its outcome and the new stack), which states the operation as
 * one all-or-nothing step, and as a method of MainActivity that does what the
 * activity does -- pop the operands, then push a result or push the operands
 * back -- and is proved to agree with that function.
 */
module Calculator {
  import opened Wrappers
  import opened KotlinText

  /** Why an operation was refused; the activity shows each as a message. */
  datatype CalcError =
    | EmptyInput                       // the trimmed entry is empty
    | InvalidNumber                    // the trimmed entry is not a number
    | InsufficientOperands(needed: nat) // the stack holds fewer values than the operation takes
    | DivisionByZero                   // the divisor (top of the stack) is zero
    | InvalidDomain                    // square root of a negative number
    | UnknownOperator                  // the operator tag is not one the operation knows

  /** The outcome of one operation and the stack it leaves behind. */
  datatype Transition = Transition(outcome: Result<real, CalcError>, stack: seq<real>)

  // ---------------------------------------------------------------------------
  // Operators

  /** The operators of the arithmetic buttons. */
  datatype BinaryOp = Add | Subtract | Multiply | Divide

  /** The tag an arithmetic button passes for its operator. */
  function Symbol(op: BinaryOp): string {
    match op
    case Add => "+"
    case Subtract => "-"
    case Multiply => "*"
    case Divide => "/"
  }

  /** The operator a tag names, if any. */
  function BinaryOpOf(tag: string): (op: Option<BinaryOp>)
    ensures op.Some? ==> Symbol(op.value) == tag
    ensures op.None? ==> tag !in {"+", "-", "*", "/"}
  {
    if tag == "+" then Some(Add)
    else if tag == "-" then Some(Subtract)
    else if tag == "*" then Some(Multiply)
    else if tag == "/" then Some(Divide)
    else None
  }

  /** Every operator is recognised from its own tag. */
  lemma SymbolRoundTrip(op: BinaryOp)
    ensures BinaryOpOf(Symbol(op)) == Some(op)
  {
  }

  /** `a op b`: the result of an arithmetic operator, where `a` was below `b`
      on the stack.  Only a zero divisor is refused. */
  function Apply(op: BinaryOp, a: real, b: real): (r: Result<real, CalcError>)
    ensures r.Failure? <==> op == Divide && b == 0.0
    ensures r.Failure? ==> r.error == DivisionByZero
  {
    match op
    case Add => Success(a + b)
    case Subtract => Success(a - b)
    case Multiply => Success(a * b)
    case Divide => if b != 0.0 then Success(a / b) else Failure(DivisionByZero)
  }

  /** The operations of the scientific buttons. */
  datatype ScientificOp = Sin | Cos | Tan | Sqrt

  /** The tag a scientific button passes for its operation. */
  function Name(op: ScientificOp): string {
    match op
    case Sin => "sin"
    case Cos => "cos"
    case Tan => "tan"
    case Sqrt => "sqrt"
  }

  /** The scientific operation a tag names, if any. */
  function ScientificOpOf(tag: string): (op: Option<ScientificOp>)
    ensures op.Some? ==> Name(op.value) == tag
    ensures op.None? ==> tag !in {"sin", "cos", "tan", "sqrt"}
  {
    if tag == "sin" then Some(Sin)
    else if tag == "cos" then Some(Cos)
    else if tag == "tan" then Some(Tan)
    else if tag == "sqrt" then Some(Sqrt)
    else None
  }

  /** Every scientific operation is recognised from its own tag. */
  lemma NameRoundTrip(op: ScientificOp)
    ensures ScientificOpOf(Name(op)) == Some(op)
  {
  }

  /** The platform's numeric functions, left uninterpreted: the trigonometric
      functions (on radians), the square root, and the degrees-to-radians
      conversion. */
  datatype MathLibrary = MathLibrary(
    sin: real -> real,
    cos: real -> real,
    tan: real -> real,
    sqrt: real -> real,
    toRadians: real -> real)

  /** The result of a scientific operation on `a`: the trigonometric functions
      take `a` in degrees; the square root of a negative number is refused. */
  function ApplyScientific(math: MathLibrary, op: ScientificOp, a: real): (r: Result<real, CalcError>)
    ensures r.Failure? <==> op == Sqrt && a < 0.0
    ensures r.Failure? ==> r.error == InvalidDomain
  {
    match op
    case Sin => Success(math.sin(math.toRadians(a)))
    case Cos => Success(math.cos(math.toRadians(a)))
    case Tan => Success(math.tan(math.toRadians(a)))
    case Sqrt => if a >= 0.0 then Success(math.sqrt(a)) else Failure(InvalidDomain)
  }

  // ---------------------------------------------------------------------------
  // The operations as all-or-nothing steps on the stack (top = last element)

  /** The equal button: trim the entry, refuse it when blank or unparsable,
      otherwise push the number it denotes. */
  function EntryStep(s: seq<real>, text: string, toFloat: string -> Option<real>): (t: Transition)
    ensures t.outcome == Failure(EmptyInput) <==> Blank(text)
    ensures t.outcome == Failure(InvalidNumber) <==> !Blank(text) && toFloat(Trim(text)).None?
    ensures t.outcome.Success? <==> !Blank(text) && toFloat(Trim(text)).Some?
    ensures t.outcome.Success? ==> t.outcome.value == toFloat(Trim(text)).value
    ensures t.outcome.Success? ==> t.stack == s + [t.outcome.value]
    ensures t.outcome.Failure? ==> t.stack == s
  {
    var input := Trim(text);
    if input == [] then Transition(Failure(EmptyInput), s)
    else match toFloat(input)
      case None => Transition(Failure(InvalidNumber), s)
      case Some(number) => Transition(Success(number), s + [number])
  }

  /** An arithmetic button: with at least two values on the stack, `b` is the
      top and `a` the one below it; on success both are replaced by `a op b`,
      on any failure the stack is left as it was. */
  function BinaryStep(s: seq<real>, tag: string): (t: Transition)
    ensures |s| < 2 ==> t == Transition(Failure(InsufficientOperands(2)), s)
    ensures t.outcome.Failure? ==> t.stack == s
    ensures t.outcome.Success? ==> |s| >= 2 && t.stack == s[..|s| - 2] + [t.outcome.value]
    ensures t.outcome == Failure(UnknownOperator) <==> |s| >= 2 && BinaryOpOf(tag).None?
    ensures t.outcome == Failure(DivisionByZero) <==> |s| >= 2 && tag == "/" && s[|s| - 1] == 0.0
  {
    if |s| < 2 then Transition(Failure(InsufficientOperands(2)), s)
    else
      var a, b := s[|s| - 2], s[|s| - 1];
      match BinaryOpOf(tag)
      case None => Transition(Failure(UnknownOperator), s)
      case Some(op) =>
        match Apply(op, a, b)
        case Failure(e) => Transition(Failure(e), s)
        case Success(v) => Transition(Success(v), s[..|s| - 2] + [v])
  }

  /** A scientific button: with at least one value on the stack, the top `a` is
      replaced by the operation's result; on any failure the stack is left as
      it was. */
  function ScientificStep(s: seq<real>, tag: string, math: MathLibrary): (t: Transition)
    ensures |s| == 0 ==> t == Transition(Failure(InsufficientOperands(1)), s)
    ensures t.outcome.Failure? ==> t.stack == s
    ensures t.outcome.Success? ==> |s| >= 1 && t.stack == s[..|s| - 1] + [t.outcome.value]
    ensures t.outcome == Failure(UnknownOperator) <==> |s| >= 1 && ScientificOpOf(tag).None?
    ensures t.outcome == Failure(InvalidDomain) <==> |s| >= 1 && tag == "sqrt" && s[|s| - 1] < 0.0
  {
    if |s| == 0 then Transition(Failure(InsufficientOperands(1)), s)
    else
      var a := s[|s| - 1];
      match ScientificOpOf(tag)
      case None => Transition(Failure(UnknownOperator), s)
      case Some(op) =>
        match ApplyScientific(math, op, a)
        case Failure(e) => Transition(Failure(e), s)
        case Success(v) => Transition(Success(v), s[..|s| - 1] + [v])
  }

  // ---------------------------------------------------------------------------
  // Properties of the steps

  /** Operand order: `a` is the second value from the top and `b` the top, so
      subtraction gives `a - b` and division `a / b`; dividing by zero leaves
      `a` below `b` as they were. */
  lemma OperandOrder(s: seq<real>, a: real, b: real)
    ensures BinaryStep(s + [a, b], "+") == Transition(Success(a + b), s + [a + b])
    ensures BinaryStep(s + [a, b], "-") == Transition(Success(a - b), s + [a - b])
    ensures BinaryStep(s + [a, b], "*") == Transition(Success(a * b), s + [a * b])
    ensures b != 0.0 ==> BinaryStep(s + [a, b], "/") == Transition(Success(a / b), s + [a / b])
    ensures b == 0.0 ==> BinaryStep(s + [a, b], "/") == Transition(Failure(DivisionByZero), s + [a, b])
  {
    var t := s + [a, b];
    assert t[..|t| - 2] == s;
  }

  /** A scientific operation on the top value `a`; everything below it stays. */
  lemma ScientificOnTop(s: seq<real>, a: real, math: MathLibrary)
    ensures ScientificStep(s + [a], "sin", math) == Transition(Success(math.sin(math.toRadians(a))), s + [math.sin(math.toRadians(a))])
    ensures ScientificStep(s + [a], "cos", math) == Transition(Success(math.cos(math.toRadians(a))), s + [math.cos(math.toRadians(a))])
    ensures ScientificStep(s + [a], "tan", math) == Transition(Success(math.tan(math.toRadians(a))), s + [math.tan(math.toRadians(a))])
    ensures a >= 0.0 ==> ScientificStep(s + [a], "sqrt", math) == Transition(Success(math.sqrt(a)), s + [math.sqrt(a)])
    ensures a < 0.0 ==> ScientificStep(s + [a], "sqrt", math) == Transition(Failure(InvalidDomain), s + [a])
  {
    var t := s + [a];
    assert t[..|t| - 1] == s;
  }

  /** An arithmetic operation looks only at the two topmost values: on a
      stack with more values below them, it has the same outcome and leaves
      those values where they were. */
  lemma BinaryStepIgnoresBelow(below: seq<real>, s: seq<real>, tag: string)
    requires |s| >= 2
    ensures BinaryStep(below + s, tag).outcome == BinaryStep(s, tag).outcome
    ensures BinaryStep(below + s, tag).stack == below + BinaryStep(s, tag).stack
  {
    var u := below + s;
    assert u[|u| - 1] == s[|s| - 1] && u[|u| - 2] == s[|s| - 2];
    assert u[..|u| - 2] == below + s[..|s| - 2];
  }

  /** A scientific operation looks only at the topmost value. */
  lemma ScientificStepIgnoresBelow(below: seq<real>, s: seq<real>, tag: string, math: MathLibrary)
    requires |s| >= 1
    ensures ScientificStep(below + s, tag, math).outcome == ScientificStep(s, tag, math).outcome
    ensures ScientificStep(below + s, tag, math).stack == below + ScientificStep(s, tag, math).stack
  {
    var u := below + s;
    assert u[|u| - 1] == s[|s| - 1];
    assert u[..|u| - 1] == below + s[..|s| - 1];
  }

  /** Whitespace around the entered text changes neither the outcome of the
      equal button nor the stack it leaves. */
  lemma EntryIgnoresPadding(s: seq<real>, before: string, text: string, after: string, toFloat: string -> Option<real>)
    requires Blank(before) && Blank(after)
    ensures EntryStep(s, before + text + after, toFloat) == EntryStep(s, text, toFloat)
  {
    TrimIgnoresPadding(before, text, after);
    assert Blank(before + text + after) <==> Blank(text) by {
      BlankAppend(before, text);
      BlankAppend(before + text, after);
    }
  }

  // ---------------------------------------------------------------------------
  // The activity

  /** The calculator activity's state: its operand stack (last element = top),
      with the platform's number parser and numeric library fixed at creation. */
  class MainActivity {
    /** String.toFloat(): None stands for a NumberFormatException. */
    const toFloat: string -> Option<real>
    const math: MathLibrary
    var stack: seq<real>

    constructor (toFloat: string -> Option<real>, math: MathLibrary)
      ensures this.toFloat == toFloat && this.math == math
      ensures stack == []
    {
      this.toFloat := toFloat;
      this.math := math;
      stack := [];
    }

    /** Stack.push. */
    method Push(x: real)
      modifies this
      ensures stack == old(stack) + [x]
    {
      stack := stack + [x];
    }

    /** Stack.pop, which the activity calls only on a stack it has checked. */
    method Pop() returns (x: real)
      requires |stack| > 0
      modifies this
      ensures old(stack) == stack + [x]
    {
      x := stack[|stack| - 1];
      stack := stack[..|stack| - 1];
    }

    /** The equal button. */
    method SubmitEntry(text: string) returns (r: Result<real, CalcError>)
      modifies this
      ensures r == EntryStep(old(stack), text, toFloat).outcome
      ensures stack == EntryStep(old(stack), text, toFloat).stack
    {
      var input := Trim(text);
      if |input| > 0 {
        match toFloat(input)
        case Some(number) =>
          Push(number);
          r := Success(number);
        case None =>
          r := Failure(InvalidNumber);
      } else {
        r := Failure(EmptyInput);
      }
    }

    /** An arithmetic button: pop `b`, pop `a`, push `a op b`, or push `a` and
        `b` back when the divisor is zero or the operator is unknown. */
    method PerformOperation(operator: string) returns (r: Result<real, CalcError>)
      modifies this
      ensures r == BinaryStep(old(stack), operator).outcome
      ensures stack == BinaryStep(old(stack), operator).stack
    {
      if |stack| < 2 {
        return Failure(InsufficientOperands(2));
      }
      var b := Pop();
      var a := Pop();
      assert old(stack) == stack + [a, b];
      assert old(stack)[..|old(stack)| - 2] == stack;
      var result: real;
      if operator == "+" {
        result := a + b;
      } else if operator == "-" {
        result := a - b;
      } else if operator == "*" {
        result := a * b;
        assert Apply(Multiply, a, b).value == result;
      } else if operator == "/" {
        if b != 0.0 {
          result := a / b;
        } else {
          Push(a);
          Push(b);
          return Failure(DivisionByZero);
        }
      } else {
        Push(a);
        Push(b);
        return Failure(UnknownOperator);
      }
      Push(result);
      r := Success(result);
    }

    /** A scientific button: pop `a`, push the result, or push `a` back when
        the square root's argument is negative or the operation is unknown. */
    method PerformScientificOperation(operation: string) returns (r: Result<real, CalcError>)
      modifies this
      ensures r == ScientificStep(old(stack), operation, math).outcome
      ensures stack == ScientificStep(old(stack), operation, math).stack
    {
      if |stack| == 0 {
        return Failure(InsufficientOperands(1));
      }
      var a := Pop();
      assert old(stack)[..|old(stack)| - 1] == stack;
      var result: real;
      if operation == "sin" {
        result := math.sin(math.toRadians(a));
      } else if operation == "cos" {
        result := math.cos(math.toRadians(a));
      } else if operation == "tan" {
        result := math.tan(math.toRadians(a));
      } else if operation == "sqrt" {
        if a >= 0.0 {
          result := math.sqrt(a);
        } else {
          Push(a);
          return Failure(InvalidDomain);
        }
      } else {
        Push(a);
        return Failure(UnknownOperator);
      }
      Push(result);
      r := Success(result);
    }

    /** The clear-all button. */
    method ClearAll()
      modifies this
      ensures stack == []
    {
      stack := [];
    }
  }
}
