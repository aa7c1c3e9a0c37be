/** Optional values, standing for TypeScript's optional properties (`imageUrl?: string`). */
module Wrappers {

  datatype Option<+T> = None | Some(value: T)
}
