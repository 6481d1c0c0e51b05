/** The records the crawler, the store and the bot pass around
    (internal/model/model.go), the errors they report, and the
    Option/Result wrappers used for Go's `(value, error)` returns. */
module Model {

  datatype Option<+T> = None | Some(value: T) {
    function GetOr(default: T): T {
      match this
      case Some(v) => v
      case None => default
    }
  }

  /** The errors the modelled code can return. */
  datatype Error =
    | Transport                    // the HTTP client could not complete the request
    | StatusNotFound               // parser.ErrStatusNotFound (404)
    | StatusForbidden              // parser.ErrStatusForbidden (403)
    | StatusCode(code: int)        // "status code error: %d %s" for any other non-200 code
    | BadUrl                       // url.JoinPath or url.Parse refused the brand page
    | Unloadable                   // the HTML document could not be loaded
    | BadNumber(text: string)      // strconv.Atoi refused the text
    | BadPostedDate(text: string)  // time.Parse refused the posted date
    | BrandNotFound(brand: string) // `brand %q not found`
    | Cancelled                    // ctx.Err() was non-nil
    | Storage                      // the database driver reported an error
    | NotFound                     // repository.ErrNotFound
    | DuplicateKey                 // a users row with that chat_id already exists
    | BadChatId                    // "error to parse chat id"
    | BadPayload                   // the callback data is not a JSON object
    | Telegram                     // a Telegram API request failed

  datatype Result<+T> = Ok(value: T) | Err(error: Error)

  /** Calendar day of a crawl (the `parsed` column) and instants (time.Time). */
  type Day = int
  type Instant = int

  /** The drive-type strings of model.DriveType; the zero value is "". */
  const DriveFront: string := "FWD"
  const DriveRear: string := "RWD"
  const DriveAll: string := "AWD"

  /** model.Car. `fuel` and `drive` are Go string types, so they hold any text;
      `oldPrice` is only filled in by the price-change query. */
  datatype Car = Car(
    manufacturer: string,
    model: string,
    year: int,
    mileage: int,
    engineSize: real,
    fuel: string,
    drive: string,
    automaticGearbox: bool,
    power: int,
    color: string,
    price: int,
    description: string,
    adId: string,
    link: string,
    posted: Instant,
    address: string,
    parsed: Day,
    oldPrice: int)

  /** Go's zero value `model.Car{}`. */
  const ZeroCar: Car := Car("", "", 0, 0, 0.0, "", "", false, 0, "", 0, "", "", "", 0, "", 0, 0)

  /** The key of the `cars` table: (ad_id, parsed). */
  datatype CarKey = CarKey(adId: string, parsed: Day)

  /** A `users` row, in the column order the repository scans it. */
  datatype User = User(
    chatId: int,
    firstName: string,
    lastName: string,
    username: string,
    admin: bool,
    approved: bool,
    updatedAt: Instant,
    createdAt: Instant)
}
