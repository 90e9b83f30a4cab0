/** What the tools exchange with the models they call: a chat prompt of two messages, and
    the outcome of a call that may raise. */
module Llm {
  /** The system and human messages of a chat prompt. */
  datatype Prompt = Prompt(system: string, human: string)

  /** A call that returned a value, or raised an exception with its message. */
  datatype Outcome<T> = Raised(error: string) | Returned(value: T)

  /** A line break and the sixteen spaces that indent the tools' triple-quoted templates. */
  const Nl16 := "\n                "
}
