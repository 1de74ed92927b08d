# Calculater: the operand-stack engine

The Android calculator keeps a stack of numbers in its main activity
(`MainActivity.stack`). The equal button trims the entered text and pushes the
number it denotes. The arithmetic buttons `+ - * /` pop the top value `b` and
then the value `a` below it, and push `a op b`. The scientific buttons or menu
items `sin cos tan sqrt` pop the top value `a` and push the result; the trigonometric functions
read `a` in degrees. Clear-all empties the stack. When the stack holds too few
values, an operation returns before it pops anything. When an operation is
refused after popping (division by zero, square root of a negative number, an
unknown operator tag), the activity pushes the popped operands back in their old
order. Either way the stack is left exactly as it was.

The project has three modules:

- `Wrappers`: `Option` and `Result`.
- `KotlinText`: Kotlin's `String.trim()` and `Char.isWhitespace()`, which the
  equal button applies to the entry. It proves that the trimmed text is empty
  exactly when the entry is blank, that trimming is idempotent, and that
  surrounding whitespace changes nothing.
- `Calculator`: the engine. Each operation appears twice:
  - a pure function from the old stack to a `Transition` (outcome and new
    stack): `EntryStep`, `BinaryStep` and `ScientificStep`. These state the
    operation as one all-or-nothing step;
  - a method of the class `MainActivity`, whose `stack: seq<real>` field is
    the `Stack<Float>` (last element = top). The method does what the activity
    does: it pops the operands, then pushes a result or pushes the operands
    back. Its `ensures` say that the outcome and the new stack are exactly those
    of the step function.

Errors are a datatype (`CalcError`), not the message strings the activity
shows. `InsufficientOperands(needed)` records whether two values (arithmetic)
or one (scientific) were needed. Numbers are `real`. The platform's `sin`,
`cos`, `tan`, `sqrt` and `Math.toRadians` are the fields of a `MathLibrary`
value, left uninterpreted. `String.toFloat()` is a function `string ->
Option<real>`, where `None` stands for the `NumberFormatException`. Both are fixed
when the activity is created.

The activity dispatches on string tags ("+", "sqrt", ...), so the model keeps
string tags and the unknown-operator path. It relates the tags to the
enumerations `BinaryOp` and `ScientificOp`.

## Model

| member | source | states |
|---|---|---|
| `Calculator.MainActivity.constructor` | app/src/main/java/com/example/calculater/MainActivity.kt:26 | the activity starts with an empty stack |
| `Calculator.MainActivity.SubmitEntry` | app/src/main/java/com/example/calculater/MainActivity.kt:69-83 | the equal button's result and new stack are exactly those of `EntryStep` on the old stack |
| `Calculator.EntryStep` | app/src/main/java/com/example/calculater/MainActivity.kt:70-82 | the entry fails with `EmptyInput` iff the text is all whitespace, and with `InvalidNumber` iff it is not blank and the trimmed text does not parse; on failure the stack is unchanged; on success exactly the parsed value of the trimmed text is appended |
| `Calculator.EntryIgnoresPadding` | app/src/main/java/com/example/calculater/MainActivity.kt:70-74 | whitespace before and after the entry changes neither the outcome nor the new stack |
| `KotlinText.IsWhitespace` | app/src/main/java/com/example/calculater/MainActivity.kt:70 | the characters `trim()` removes: Kotlin/JVM's `Char.isWhitespace`: the Unicode 6.3+ categories Zs, Zl and Zp plus the controls U+0009..U+000D and U+001C..U+001F (U+180E is not whitespace); no digit or decimal point, the characters the number buttons enter, is whitespace |
| `KotlinText.Trim` | app/src/main/java/com/example/calculater/MainActivity.kt:70 | the trimmed text is no longer than the input, is empty iff the input is all whitespace, and otherwise starts and ends with a non-whitespace character |
| `KotlinText.TrimIsTrimOf` | app/src/main/java/com/example/calculater/MainActivity.kt:70 | the trimmed text is a slice of the input with only whitespace before and after it |
| `KotlinText.TrimUnique` | app/src/main/java/com/example/calculater/MainActivity.kt:70 | any slice with non-whitespace ends and only whitespace around it is the trimmed text, so the characterisation determines `Trim` |
| `KotlinText.TrimIdempotent` | app/src/main/java/com/example/calculater/MainActivity.kt:70 | trimming twice gives the same text as trimming once |
| `KotlinText.TrimIgnoresPadding` | app/src/main/java/com/example/calculater/MainActivity.kt:70 | adding whitespace on either side of a text does not change its trim |
| `Calculator.MainActivity.Push` | app/src/main/java/com/example/calculater/MainActivity.kt:74 | `Stack.push` appends the value as the new top (last element); the same push is used at lines 155-156, 161-162, 167, 188, 193 and 198 |
| `Calculator.MainActivity.Pop` | app/src/main/java/com/example/calculater/MainActivity.kt:146-147 | `Stack.pop` on a non-empty stack returns the top (last element) and leaves the values below it; used at line 181 as well, so the first pop is `b` and the second `a` |
| `Calculator.MainActivity.PerformOperation` | app/src/main/java/com/example/calculater/MainActivity.kt:140-169 | the pop/compute/push-back sequence has exactly the outcome and the new stack of `BinaryStep` on the old stack |
| `Calculator.BinaryStep` | app/src/main/java/com/example/calculater/MainActivity.kt:140-169 | fewer than two values: `InsufficientOperands(2)` and the stack is unchanged; every failure leaves the stack unchanged; success replaces the two topmost values by the result, so the size drops by one and everything below is untouched; `UnknownOperator` iff the tag is none of the four; `DivisionByZero` iff the tag is "/" and the top is 0 |
| `Calculator.OperandOrder` | app/src/main/java/com/example/calculater/MainActivity.kt:146-158 | on a stack ending in `a, b` the buttons give `a + b`, `a - b`, `a * b` and, for `b != 0`, `a / b`; dividing by zero leaves `..., a, b` as it was |
| `Calculator.BinaryStepIgnoresBelow` | app/src/main/java/com/example/calculater/MainActivity.kt:146-167 | an arithmetic operation depends only on the two topmost values and leaves any values below them in place |
| `Calculator.BinaryOpOf` | app/src/main/java/com/example/calculater/MainActivity.kt:149-164 | a recognised tag is the symbol of the operator it names; an unrecognised tag is none of "+", "-", "*", "/" |
| `Calculator.SymbolRoundTrip` | app/src/main/java/com/example/calculater/MainActivity.kt:85-88 | the tag each arithmetic button passes is recognised as that button's operator |
| `Calculator.Apply` | app/src/main/java/com/example/calculater/MainActivity.kt:149-158 | an arithmetic operator fails iff it divides by zero, and then with `DivisionByZero` |
| `Calculator.MainActivity.PerformScientificOperation` | app/src/main/java/com/example/calculater/MainActivity.kt:175-200 | the pop/compute/push-back sequence has exactly the outcome and the new stack of `ScientificStep` on the old stack |
| `Calculator.ScientificStep` | app/src/main/java/com/example/calculater/MainActivity.kt:175-200 | an empty stack gives `InsufficientOperands(1)` and stays empty; every failure leaves the stack unchanged; success replaces only the top value, so the size is kept and everything below is untouched; `UnknownOperator` iff the tag is none of the four; `InvalidDomain` iff the tag is "sqrt" and the top is negative |
| `Calculator.ScientificOnTop` | app/src/main/java/com/example/calculater/MainActivity.kt:181-198 | on a stack ending in `a`, sin, cos and tan replace `a` by the function of `a` converted to radians; sqrt replaces a non-negative `a` by its root and leaves a negative `a` in place |
| `Calculator.ScientificStepIgnoresBelow` | app/src/main/java/com/example/calculater/MainActivity.kt:181-198 | a scientific operation depends only on the top value and leaves any values below it in place |
| `Calculator.ScientificOpOf` | app/src/main/java/com/example/calculater/MainActivity.kt:182-195 | a recognised tag is the name of the operation it names; an unrecognised tag is none of "sin", "cos", "tan", "sqrt" |
| `Calculator.NameRoundTrip` | app/src/main/java/com/example/calculater/MainActivity.kt:102-105 | the tag each scientific button passes is recognised as that button's operation |
| `Calculator.ApplyScientific` | app/src/main/java/com/example/calculater/MainActivity.kt:182-190 | a scientific operation fails iff it is a square root of a negative value, and then with `InvalidDomain` |
| `Calculator.MainActivity.ClearAll` | app/src/main/java/com/example/calculater/MainActivity.kt:94-98 | clear-all leaves the stack empty |

## Left out

- Floating point: values are exact reals. The model has no `Float` rounding, no
  `toDouble`/`toFloat` conversions, and no overflow to infinity. It has no NaN,
  for which `a >= 0` is false and `sqrt` would refuse. It has no negative zero;
  the source's `b != 0f` also treats `-0f` as zero, and the model's single zero
  does the same.
- ApplyScientific: does not state that the square root is non-negative or what
  the trigonometric values are (for instance, that the sine of 90 degrees is
  1). These are properties of the platform's numeric library, which the model
  leaves uninterpreted.
- IsWhitespace: follows Kotlin/JVM's character tables. Android releases whose
  core library treats U+180E (Mongolian vowel separator) as whitespace differ
  from the model on that one character: an entry made only of U+180E is
  `EmptyInput` there and `InvalidNumber` in the model.
- `String.toFloat()`: its grammar is not modelled. It is a parameter of the
  activity that either yields a number or fails.
- The display: `updateResultText`, the messages written to the result view,
  and the clearing of the entry field after a push or on clear-all. Errors are
  returned as `CalcError` values instead. The model has no separate read-only
  snapshot operation, because the source only renders the stack as text.
- Clear-entry (lines 90-92): it clears only the entry field and never touches
  the stack.
- The Android lifecycle and wiring: `onCreate`, the listeners, the number
  buttons that append digits to the entry, tablet detection, and the options
  menu. They only decide which operation is called with which tag. The tags they
  use are the ones `SymbolRoundTrip` and `NameRoundTrip` cover.
- Concurrency: the activity runs every handler on the UI thread, one at a
  time, so each operation is modelled as a single atomic step.
