/** The request configuration that the services and the overlay composer
    read. String fields hold the value as it is interpolated; the empty
    string stands for an absent (or otherwise falsy) value, which is all
    the `a || b` defaults of the source distinguish. */
module Config {
  import opened Wrappers

  /** `overlay.topRight`. */
  datatype TopRight = TopRight(line1: string, line2: string)

  /** `overlay`: text lines, timecode and styling. `fontSize` 0 stands for an
      absent size; `offset` is `parseInt(overlay.offset)`, 0 when absent. */
  datatype Overlay = Overlay(
    line1: string,
    line2: string,
    topRight: Option<TopRight>,
    timecode: bool,
    offset: int,
    scrolling: bool,
    font: string,
    fontSize: nat,
    textColor: string,
    backgroundColor: string)

  /** The request-level fields the overlay composer reads: `overlay` itself
      and the top-level `font`, `scrolling`, `textColor` and
      `backgroundColor` that some of its lines consult instead of the
      overlay's own. */
  datatype TextOptions = TextOptions(
    overlay: Option<Overlay>,
    font: string,
    scrolling: bool,
    textColor: string,
    backgroundColor: string)

  /** `output.vbr`; `true` is `Vbr("", "")`. */
  datatype Vbr = Vbr(minBitrate: string, maxBitrate: string)

  /** `thumbnail`: absent, a boolean, or an object with a frequency. */
  datatype Thumbnail = NoThumbnail | ThumbnailFlag(on: bool) | ThumbnailSettings(frequency: string)

  /** `input` or `output`: every endpoint field any service reads.
      `latency` is `parseInt(latency)`, `None` when that is NaN (absent);
      `chunkSize` 0 stands for absent; `pattern` is the source's `type`. */
  datatype Endpoint = Endpoint(
    address: string,
    port: string,
    packetSize: string,
    latency: Option<int>,
    mode: string,
    ttl: string,
    tos: string,
    transtype: string,
    maxbw: string,
    passphrase: string,
    buffer: string,
    jitterBuffer: string,
    encodePreset: string,
    bitrate: string,
    vbr: Option<Vbr>,
    key: string,
    cardName: string,
    volume: string,
    file: string,
    format: string,
    chunkSize: nat,
    repeat: bool,
    pattern: string,
    frequency: string,
    duplexMode: string)

  /** The options object every service's `process` receives. */
  datatype Options = Options(input: Endpoint, output: Endpoint, thumbnail: Thumbnail, text: TextOptions)
}
