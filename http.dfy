/** The HTTP status codes that the export operation and its data store use. */
module Http {

  datatype HttpStatus =
    | OK                   // 200
    | Created              // 201
    | Accepted             // 202
    | BadRequest           // 400
    | NotFound             // 404
    | Conflict             // 409
    | InternalServerError  // 500
    | NotImplemented       // 501
  {
    /** The numeric code sent on the wire. */
    function Code(): (c: int)
      ensures 200 <= c < 600
      ensures c < 300 <==> this in {OK, Created, Accepted}
    {
      match this
      case OK => 200
      case Created => 201
      case Accepted => 202
      case BadRequest => 400
      case NotFound => 404
      case Conflict => 409
      case InternalServerError => 500
      case NotImplemented => 501
    }
  }
}
