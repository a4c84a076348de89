/** Optional values, results, and the kinds of Go `error` the core passes around. */
module Wrappers {

  datatype Option<+T> = None | Some(value: T)

  datatype Result<+R> = Success(value: R) | Failure(error: Error)

  /** The error values the core can return, by the Go type that carries them. */
  datatype Error =
    | LibvirtError(code: int)   // a libvirt.Error, with its virErrorNumber
    | CidrError(text: string)   // *net.ParseError from net.ParseCIDR
    | AtoiError(text: string)   // *strconv.NumError from strconv.Atoi
    | HostError(what: string)   // any other error from the host: file read, YAML decoding, directory creation, connection
    | Panic(what: string)       // a run-time panic, which ends the run at that point
}
