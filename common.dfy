/** Small shared datatypes: an optional value and the response envelope that every
    mock service method answers with. */
module Common {

  datatype Option<T> = None | Some(value: T) {
    function GetOr(default: T): T {
      if Some? then value else default
    }
  }

  /** The `{success, message, ...payload}` envelope: success carries a message (empty
      where the service sends none) and the payload, failure carries only its message. */
  datatype Response<T> = Ok(message: string, data: T) | Err(message: string)
}
