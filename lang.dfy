/**
 * The few Java and Adventure notions the event and builder models share: the exceptions
 * their argument checks throw, and chat components, which this model treats as opaque.
 */
module Lang {
  /** An exception thrown by an argument check. */
  datatype Thrown =
    | NullPointer(argument: string)     // `Preconditions.checkNotNull` / `Objects.requireNonNull`
    | IllegalArgument(message: string)  // `Preconditions.checkArgument`
    | QuietRuntime(message: string)     // Velocity's stackless `QuietRuntimeException`

  /** An Adventure `Component`: chat text, compared by value and otherwise opaque here. */
  datatype Component = Component(raw: string)
}
