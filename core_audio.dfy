/** Types shared by the sample player and the render-graph executor: the
    status codes an audio unit's render block returns, sample values, and an
    optional value for decoders that may fail. */
module CoreAudio {

  /** An `OSStatus`: zero is success, anything else is a host-defined error
      code that callers propagate unchanged. */
  type OSStatus = int

  const NoErr: OSStatus := 0

  /** One audio sample. Samples are only ever copied, never computed on, so
      an exact `real` stands in for the 32-bit float. */
  type Sample = real

  /** The value written where there is nothing to play. */
  const Silence: Sample := 0.0

  datatype Option<+T> = None | Some(value: T)
}
