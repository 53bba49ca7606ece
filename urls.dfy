/** The parts of a parsed URL that the relay looks at, and the shapes of the
    two library routines it calls on URLs. The library routines themselves
    (Go's `url.Parse` and `net.SplitHostPort`) are not modelled: every member
    that needs them takes one as a parameter, so every property proved holds
    for any parser and any splitter. */
module Urls {
  import opened Wrappers

  /** A parsed URL: its scheme (`rist`, `udp`, ...) and its `host[:port]` part. */
  datatype Url = Url(scheme: string, host: string)

  /** `url.Parse`: `None` when the text does not parse. */
  type Parser = string -> Option<Url>

  /** `net.SplitHostPort`: the host and the port, or `None` when the text
      cannot be split. */
  type HostPortSplitter = string -> Option<(string, string)>
}
