/** The requests, results and buffers that cross the boundary between the framework and the session. */
module CameraTypes {
  datatype StreamType = Preview | Still | Video

  datatype PixelFormat = Rgb24 | Yuyv422

  datatype PayloadFormat = NoPayload | Rgb24Payload | Yuyv422Payload

  datatype Target = Target(
    streamId: int,
    bufferId: int,
    bufferFd: int,
    acquireFence: int,
    bufferSize: nat,
    streamType: StreamType,
    width: int,
    height: int,
    format: PixelFormat)

  datatype Request = Request(frameNumber: nat, width: int, height: int, outputs: seq<Target>)

  datatype CaptureStatus = Ok | FlushedStatus | SensorError | ProcessingError

  datatype CompletedBuffer = CompletedBuffer(
    streamId: int,
    bufferId: int,
    outputIndex: int,
    status: CaptureStatus,
    releaseFence: int)

  datatype Result = Result(
    frameNumber: nat,
    status: CaptureStatus,
    buffers: seq<CompletedBuffer>,
    width: int,
    height: int,
    payload: PayloadFormat)

  function PayloadFor(format: PixelFormat): PayloadFormat {
    match format
    case Rgb24 => Rgb24Payload
    case Yuyv422 => Yuyv422Payload
  }
}
