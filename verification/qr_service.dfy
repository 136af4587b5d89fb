/**
 * The QR service: a guard against empty data around the third-party
 * encoder, whose error is wrapped with a fixed prefix.
 */
module QrService {
  import opened Wrappers

  /**
   * The `qr.Service` interface: data and size to PNG bytes, or an error
   * message.  The handler receives one of these.
   */
  type Service = (string, int) -> Result<string, string>

  /**
   * `qrcode.Encode(content, qrcode.Medium, size)` from the third-party
   * library, left abstract; the error-correction level is always Medium.
   */
  type Encoder = (string, int) -> Result<string, string>

  const EmptyDataMessage: string := "data cannot be empty"
  const EncodeFailurePrefix: string := "failed to encode QR code: "

  /** `service.Generate`: refuse empty data, otherwise encode and wrap any error. */
  function Generate(encode: Encoder, data: string, size: int): (r: Result<string, string>)
    ensures |data| == 0 ==> r == Failure(EmptyDataMessage)
    ensures |data| > 0 && encode(data, size).Success? ==> r == encode(data, size)
    ensures |data| > 0 && encode(data, size).Failure? ==> r == Failure(EncodeFailurePrefix + encode(data, size).error)
  {
    if |data| == 0 then Failure(EmptyDataMessage)
    else
      match encode(data, size)
      case Success(png) => Success(png)
      case Failure(e) => Failure(EncodeFailurePrefix + e)
  }

  /** The service as the handler sees it, built on a given encoder. */
  function ServiceOf(encode: Encoder): Service {
    (data: string, size: int) => Generate(encode, data, size)
  }
}
