/** The NATS producer of bot_runner_go: configuration checks, construction,
    and Publish/Close guarded by the nil-able connection. */
module Producer {
  import opened Wrappers
  import opened Nats

  const ErrNatsURL := "nats_url is required"
  const ErrSubject := "subject is required"
  const ErrNotInitialized := "NATS connection is not initialized"

  datatype Config = Config(natsURL: string, subject: string)

  /** Validate only reads the configuration: it reports the first missing
      field, the server address first. */
  function Validate(c: Config): (err: Option<string>)
    ensures err.None? <==> c.natsURL != "" && c.subject != ""
    ensures c.natsURL == "" ==> err == Some(ErrNatsURL)
    ensures c.natsURL != "" && c.subject == "" ==> err == Some(ErrSubject)
  {
    if c.natsURL == "" then Some(ErrNatsURL)
    else if c.subject == "" then Some(ErrSubject)
    else None
  }

  datatype Conn = Conn(url: string)

  class Producer {
    const subject: string
    var nc: Option<Conn>
    /** The payloads the connection accepted, in order. */
    var published: seq<seq<byte>>
    /** The connections Close has closed. */
    var closed: seq<Conn>

    constructor (subject: string, nc: Conn)
      ensures this.subject == subject && this.nc == Some(nc) && published == [] && closed == []
    {
      this.subject, this.nc := subject, Some(nc);
      published, closed := [], [];
    }

    /** Publish on the connection; `sendErr` is what the connection's own
        Publish gives. Without a connection nothing is sent. */
    method Publish(msg: seq<byte>, sendErr: Option<string>) returns (err: Option<string>)
      modifies this`published
      ensures nc.None? ==> err == Some(ErrNotInitialized) && published == old(published)
      ensures nc.Some? ==> err == sendErr && published == old(published) + (if sendErr.None? then [msg] else [])
    {
      if nc.None? {
        return Some(ErrNotInitialized);
      }
      if sendErr.Some? {
        return sendErr;
      }
      published := published + [msg];
      return None;
    }

    /** Close the connection once and forget it; a second Close does nothing. */
    method Close()
      modifies this`nc, this`closed
      ensures nc.None?
      ensures closed == old(closed) + (if old(nc).Some? then [old(nc).value] else [])
    {
      if nc.Some? {
        closed := closed + [nc.value];
        nc := None;
      }
    }
  }

  /** New validates before dialling: an invalid configuration is returned
      as is and no connection is attempted (`dialled` is false). `connect`
      is the outcome of dialling a server address. */
  method New(cfg: Config, connect: string -> Result<Conn, string>) returns (p: Producer?, err: Option<string>, dialled: bool)
    ensures Validate(cfg).Some? ==> p == null && err == Validate(cfg) && !dialled
    ensures Validate(cfg).None? ==> dialled
    ensures p != null <==> Validate(cfg).None? && connect(cfg.natsURL).Success?
    ensures p != null ==> fresh(p) && err.None? && p.subject == cfg.subject && p.nc == Some(connect(cfg.natsURL).value) && p.published == []
    ensures Validate(cfg).None? && connect(cfg.natsURL).Failure? ==> err == Some(connect(cfg.natsURL).error)
  {
    err := Validate(cfg);
    if err.Some? {
      return null, err, false;
    }
    var nc := connect(cfg.natsURL);
    if nc.Failure? {
      return null, Some(nc.error), true;
    }
    p := new Producer(cfg.subject, nc.value);
    return p, None, true;
  }

  /** Once closed, a producer refuses every Publish and sends nothing, and a
      second Close closes no further connection. */
  method CloseThenPublish(p: Producer, msg: seq<byte>, sendErr: Option<string>) returns (err: Option<string>)
    modifies p
    ensures err == Some(ErrNotInitialized) && p.published == old(p.published)
    ensures p.closed == old(p.closed) + (if old(p.nc).Some? then [old(p.nc).value] else [])
  {
    p.Close();
    err := p.Publish(msg, sendErr);
    p.Close();
  }
}
