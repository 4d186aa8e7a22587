/** The execution environment the client code probes: whether a `window`
    object exists (`typeof window !== 'undefined'`) and the string-to-string
    key/value store `localStorage`. */
module Browser {

  class Host {
    /** A `window` exists (false during server-side rendering). */
    const hasWindow: bool
    /** The contents of `localStorage`. */
    var localStorage: map<string, string>

    constructor (hasWindow: bool, localStorage: map<string, string>)
      ensures this.hasWindow == hasWindow && this.localStorage == localStorage
    {
      this.hasWindow := hasWindow;
      this.localStorage := localStorage;
    }
  }
}
