/** What a request carries and what a controller answers. */
module Http {
  import opened Wrappers

  /**
   * One field of a request's input: not sent at all, sent as null, or sent
   * with a value. Laravel's `sometimes`, `required` and `nullable` rules tell
   * these three apart. The value is already of the field's type: input that
   * does not parse as a date, an integer or a number is not modelled.
   */
  datatype Field<+T> = Missing | Null | Given(value: T) {
    /** The value, or `default` when the field carries none. */
    function Or(default: T): T {
      if Given? then value else default
    }

    /** PHP's `$input['key'] ?? null`: a missing or null field becomes null. */
    function ToOption(): Option<T> {
      if Given? then Some(value) else None
    }
  }

  /** The HTTP status of a response. */
  datatype Status = Ok | Created | NotFound | Unprocessable | ServerError
}
