/**
 * The run-time values a PHP caller can pass to an untyped parameter, as far
 * as `is_string` and `is_null` can tell them apart: `is_string(v)` is
 * `v.Str?` and `is_null(v)` is `v.Null?`.
 */
module PhpValues {

  datatype PhpValue =
    | Null
    | Str(s: string)
    | Int(i: int)
    /** Any other PHP value: a bool, a float, an array, an object or a resource. */
    | Other
}
