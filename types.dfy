/** The records of src/types/index.ts. A JavaScript `Date` is a number of
    milliseconds; an optional property or a `T | null` is an `Option`. */
module Types {

  datatype Option<+T> = None | Some(value: T) {
    function GetOr(default: T): T {
      match this
      case Some(v) => v
      case None => default
    }
  }

  /** One chat turn; `image` is a data URL when the user attached one. */
  datatype Message = Message(
    id: string,
    content: string,
    isUser: bool,
    timestamp: int,
    image: Option<string>)

  /** A conversation; `lastMessage` caches the most recent message. */
  datatype Chatroom = Chatroom(
    id: string,
    title: string,
    messages: seq<Message>,
    createdAt: int,
    lastMessage: Option<Message>)

  /** The signed-in identity. */
  datatype User = User(
    id: string,
    phone: string,
    countryCode: string,
    isAuthenticated: bool)

  /** International direct dialling parts of a country. The JSON of the
      country service may leave out either part, so both are optional. */
  datatype Idd = Idd(root: Option<string>, suffixes: Option<seq<string>>)

  /** A country record; `commonName` is `name.common`. */
  datatype Country = Country(
    commonName: string,
    idd: Idd,
    flag: string,
    cca2: string)
}
