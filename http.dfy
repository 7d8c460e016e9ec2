/** Reading a request's headers and its parsed cookies, with JavaScript's `undefined` for a missing key. */
module Http {
  import opened Wrappers

  /** `headers[name] || ""`: a missing header reads as the empty string. */
  function Header(headers: map<string, string>, name: string): string
  {
    if name in headers then headers[name] else ""
  }

  /** `cookies[name]`: `undefined` when there is no such cookie. */
  function Cookie(cookies: map<string, string>, name: string): Option<string>
  {
    if name in cookies then Some(cookies[name]) else None
  }
}
