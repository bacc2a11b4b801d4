/** The profile of one run as the symbolizer leaves it and the comparison reads it. */
module Profiles {
  datatype FunctionSample = FunctionSample(location: string, name: string, samples: nat)

  /** What samples are counted under: the module's file name and the function. */
  datatype Key = Key(location: string, name: string)

  function KeyOf(f: FunctionSample): Key {
    Key(f.location, f.name)
  }
}
