/** The two sinks the program writes to. */
module Output {
  /** `strings.Builder`: grows, never fails. */
  class StringBuilder {
    var contents: string

    constructor ()
      ensures contents == ""
    {
      contents := "";
    }

    method WriteString(s: string)
      modifies this
      ensures contents == old(contents) + s
    {
      contents := contents + s;
    }
  }

  /** `io.Writer`: any write may fail after a prefix of its bytes went out. */
  class ResponseWriter {
    var contents: string

    constructor ()
      ensures contents == ""
    {
      contents := "";
    }

    method Write(s: string) returns (ok: bool)
      modifies this
      ensures ok ==> contents == old(contents) + s
      ensures !ok ==> old(contents) <= contents <= old(contents) + s
    {
      ok := *;
      var n: int := *;
      n := if ok || n < 0 || |s| < n then |s| else n;
      contents := contents + s[..n];
    }
  }
}
