/**
 * The two pieces of browser-session state the login gate and the page share:
 * Streamlit's `st.session_state` dictionary and the cookies reached through
 * `stx.CookieManager`. Both are updated in place, so both are objects.
 */
module Session {
  import opened JsonValue

  /** `st.session_state`: keys to the values the page stored in them. */
  class SessionState {
    var values: map<string, Json>

    constructor (initial: map<string, Json>)
      ensures values == initial
    {
      values := initial;
    }
  }

  /** The browser cookies; `cookie_manager.get` and `cookie_manager.set` read and write them. */
  class CookieJar {
    var cookies: map<string, string>

    constructor (initial: map<string, string>)
      ensures cookies == initial
    {
      cookies := initial;
    }
  }
}
