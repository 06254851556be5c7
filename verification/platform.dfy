/**
 * The few Foundation values the networking layer handles as plain data:
 * bytes, errors (NSError) and service advertisements (NetService).
 */
module Platform {

  /** One byte of a `Data` buffer. */
  newtype Byte = b: int | 0 <= b < 256

  /** An NSError: an error domain and an integer code. */
  datatype Error = Error(domain: string, code: int)

  /**
   * A service advertisement as the discovery subsystem hands it around:
   * its domain, its DNS-SD service type and its instance name. Two
   * advertisements with the same three fields are the same service.
   */
  datatype NetService = NetService(domain: string, serviceType: string, name: string)
}
