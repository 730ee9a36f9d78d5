/** The consumer configuration of bot_worker and its in-place `Validate`:
    zero or negative optional fields are replaced by defaults first, then
    the required strings are checked in order. */
module ConsumerConfig {
  import opened Wrappers

  /** time.Duration counts nanoseconds. */
  const Second: int := 1_000_000_000

  const DefaultConcurrency: int := 1
  const DefaultPullMaxWait: int := 10 * Second

  const ErrNatsURL := "nats_url is required"
  const ErrSubject := "subject is required"
  const ErrConsumerName := "consumer_name is required"
  const ErrConcurrency := "concurrency must be greater than 0"
  const ErrPullMaxWait := "pull_max_wait must be greater than 0"

  datatype Value = Value(natsURL: string, concurrency: int, subject: string, consumerName: string, pullMaxWait: int)

  /** The two defaulting assignments at the top of Validate. */
  function WithDefaults(c: Value): (d: Value)
    ensures d.concurrency >= 1 && d.pullMaxWait > 0
    ensures c.concurrency > 0 ==> d.concurrency == c.concurrency
    ensures c.pullMaxWait > 0 ==> d.pullMaxWait == c.pullMaxWait
    ensures c.concurrency <= 0 ==> d.concurrency == DefaultConcurrency
    ensures c.pullMaxWait <= 0 ==> d.pullMaxWait == DefaultPullMaxWait
    ensures d.natsURL == c.natsURL && d.subject == c.subject && d.consumerName == c.consumerName
  {
    c.(concurrency := if c.concurrency <= 0 then DefaultConcurrency else c.concurrency,
       pullMaxWait := if c.pullMaxWait <= 0 then DefaultPullMaxWait else c.pullMaxWait)
  }

  /** The five checks of Validate, in source order; the first failing one is
      reported. */
  function Check(c: Value): Option<string>
  {
    if c.natsURL == "" then Some(ErrNatsURL)
    else if c.subject == "" then Some(ErrSubject)
    else if c.consumerName == "" then Some(ErrConsumerName)
    else if c.concurrency <= 0 then Some(ErrConcurrency)
    else if c.pullMaxWait <= 0 then Some(ErrPullMaxWait)
    else None
  }

  /** Validate as a function of the configuration before the call: the
      configuration after it, and the error it returns. */
  function Validated(c: Value): (r: (Value, Option<string>))
    ensures r.0.concurrency >= 1 && r.0.pullMaxWait > 0
    ensures r.1.None? <==> c.natsURL != "" && c.subject != "" && c.consumerName != ""
    ensures c.natsURL == "" ==> r.1 == Some(ErrNatsURL)
    ensures c.natsURL != "" && c.subject == "" ==> r.1 == Some(ErrSubject)
    ensures c.natsURL != "" && c.subject != "" && c.consumerName == "" ==> r.1 == Some(ErrConsumerName)
  {
    var d := WithDefaults(c);
    (d, Check(d))
  }

  /** The concurrency and pull_max_wait checks can never fire: the defaults
      were applied before them. */
  lemma RangeChecksUnreachable(c: Value)
    ensures Check(WithDefaults(c)) != Some(ErrConcurrency)
    ensures Check(WithDefaults(c)) != Some(ErrPullMaxWait)
  {
  }

  /** Validating again changes nothing and gives the same answer. */
  lemma ValidatedIdempotent(c: Value)
    ensures Validated(Validated(c).0) == Validated(c)
  {
  }

  /** The configuration object, whose Validate overwrites its own fields. */
  class Config {
    var natsURL: string
    var concurrency: int
    var subject: string
    var consumerName: string
    var pullMaxWait: int

    function Fields(): Value
      reads this
    {
      Value(natsURL, concurrency, subject, consumerName, pullMaxWait)
    }

    constructor (v: Value)
      ensures Fields() == v
    {
      natsURL, concurrency, subject, consumerName, pullMaxWait :=
        v.natsURL, v.concurrency, v.subject, v.consumerName, v.pullMaxWait;
    }

    method Validate() returns (err: Option<string>)
      modifies this
      ensures (Fields(), err) == Validated(old(Fields()))
    {
      if concurrency <= 0 {
        concurrency := DefaultConcurrency;
      }
      if pullMaxWait <= 0 {
        pullMaxWait := DefaultPullMaxWait;
      }
      if natsURL == "" {
        return Some(ErrNatsURL);
      }
      if subject == "" {
        return Some(ErrSubject);
      }
      if consumerName == "" {
        return Some(ErrConsumerName);
      }
      if concurrency <= 0 {
        return Some(ErrConcurrency);
      }
      if pullMaxWait <= 0 {
        return Some(ErrPullMaxWait);
      }
      return None;
    }
  }
}
