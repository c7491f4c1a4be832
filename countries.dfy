/**
 * The country record as the pages read it from the REST Countries API, and
 * the outcome of one HTTP request to that API.
 */
module Countries {

  datatype Option<+T> = None | Some(value: T)

  /**
   * The fields of an API country record that the modelled logic reads.
   * A field the API may omit (`borders`, `timezones`) is an Option:
   * `None` is `undefined`, `Some([])` an empty array.
   */
  datatype Country = Country(
    commonName: string,         // name.common
    region: string,
    cca3: string,               // alpha-3 code, the identity key
    population: nat,
    borders: Option<seq<string>>,
    timezones: Option<seq<string>>
  )

  /**
   * What one `fetch` of a list of countries ends in: a parsed JSON array,
   * a response whose `ok` is false (with its status), or a rejected promise
   * (network failure, unreadable body) with its error message.
   */
  datatype Response = Ok(body: seq<Country>) | HttpError(status: nat) | NetworkError(message: string)
}
