/** A TypeScript value of type `T | null`. */
module Nullable {
  datatype Nullable<+T> = Null | NonNull(value: T)
}
