/** Optional values and results with a string error, as the callbacks of the
    signaling backend pass them around (`callback(error, value)`). */
module Base {

  datatype Option<+T> = None | Some(value: T)

  datatype Result<+T> = Success(value: T) | Failure(error: string)
}
