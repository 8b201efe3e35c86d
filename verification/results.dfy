/** Failure-carrying values shared by the whole model.
    A thrown Gradle or Kotlin exception aborts the configuration pass; here it is a `Fail`
    (or `Err`) value that every caller propagates at once. */
module Results {

  /** The exceptions the modelled code can raise. */
  datatype Error =
    | AlreadyExists(name: string)          // NamedDomainObjectContainer.create on a taken name
    | UnknownConfiguration(name: string)   // getByName / named / a reference's get on an absent name
    | NoRemapConfiguration(name: string)   // Loom has no remap configuration targeting `name`
    | Uninitialized(property: string)      // a Kotlin lateinit property read before it was set
    | MissingValue(what: string)           // Property.get() on a property without a value
    | ParchmentUnsupported                 // parchment enabled on Loom

  datatype Outcome = Pass | Fail(error: Error)

  datatype Result<+T> = Ok(value: T) | Err(error: Error)

  datatype Option<+T> = None | Some(value: T)
}
