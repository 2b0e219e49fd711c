/**
 The entity model of the todo service (src/model.rs): the two-valued state,
 the stored `Todo` record and the client-submitted `TodoInput` with its
 text-length validation rule.
 */
module Model {

  /** Rust's `u32`, the type of todo ids. */
  const U32_MAX: int := 0xFFFF_FFFF
  type U32 = x: int | 0 <= x <= U32_MAX

  datatype TodoState = Opened | Closed

  /** A stored todo; equality is structural over all three fields. */
  datatype Todo = Todo(id: U32, text: string, state: TodoState)

  /** What a client submits to create or replace a todo: no id, the store picks it. */
  datatype TodoInput = TodoInput(text: string, state: TodoState)

  /** The bounds and message of the `length` rule on `TodoInput.text`. */
  const TEXT_MIN_LENGTH: nat := 1
  const TEXT_MAX_LENGTH: nat := 200
  const TEXT_LENGTH_MESSAGE: string := "Can not be empty or longer then 200 characters"

  /** One field-level violation, as the validator reports it: field, rule code, message. */
  datatype FieldError = FieldError(field: string, code: string, message: string)

  /**
   The validation rule.  The validator counts the characters (Unicode scalar
   values) of the text, which is what `|text|` counts for a Dafny `string`.
   */
  predicate IsValid(input: TodoInput) {
    TEXT_MIN_LENGTH <= |input.text| <= TEXT_MAX_LENGTH
  }

  /** `TodoInput::validate`: the list of violations, empty exactly when the input is valid. */
  function Validate(input: TodoInput): (errors: seq<FieldError>)
    ensures errors == [] <==> IsValid(input)
    ensures |errors| <= 1
    ensures forall e | e in errors ::
              e.field == "text" && e.code == "length" && e.message == TEXT_LENGTH_MESSAGE
  {
    if IsValid(input) then []
    else [FieldError("text", "length", TEXT_LENGTH_MESSAGE)]
  }

  /** The todo a store builds from an input and the id it chose. */
  function FromInput(id: U32, input: TodoInput): (t: Todo)
    ensures t.id == id && t.text == input.text && t.state == input.state
  {
    Todo(id, input.text, input.state)
  }

  lemma EmptyTextIsRejected(state: TodoState)
    ensures Validate(TodoInput("", state)) == [FieldError("text", "length", TEXT_LENGTH_MESSAGE)]
  {
  }

  lemma OverlongTextIsRejected(input: TodoInput)
    requires |input.text| > 200
    ensures Validate(input) == [FieldError("text", "length", TEXT_LENGTH_MESSAGE)]
  {
  }

  /** Both ends of the range are accepted. */
  lemma BoundaryLengthsAreAccepted(input: TodoInput)
    requires |input.text| == 1 || |input.text| == 200
    ensures Validate(input) == []
  {
  }

  lemma TodoStateHasTwoValues(s: TodoState)
    ensures s == Opened || s == Closed
    ensures Opened != Closed
  {
  }

  lemma TodoEqualityIsStructural(a: Todo, b: Todo)
    ensures a == b <==> (a.id == b.id && a.text == b.text && a.state == b.state)
  {
  }

  /** An input determines a todo's text and state, never its id. */
  lemma InputDoesNotFixId(input: TodoInput, i: U32, j: U32)
    ensures FromInput(i, input) == FromInput(j, input) <==> i == j
  {
  }
}
