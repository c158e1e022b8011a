/**
 * The batch front end end to end: the jobs read from standard input are queued to the worker,
 * which processes them with the processor's default signature properties.
 */
module Batch {
  import opened Common
  import opened Processor
  import opened Cli
  import opened ProcessorProperties

  /** Jobs read from standard input carry no password, so the worker never locks a document they
      name: no encryption check, lock, decryption or encrypted write is ever made for them. */
  lemma BatchJobsSkipLock(e: Engine, certs: map<string, Certificate>, props: SignProps,
                          lines: seq<string>, k: nat, input: Bytes)
    requires k < |JobsOf(lines)|
    ensures var j := JobsOf(lines)[k];
      j.password == [] && NoLockCalls(ProcessDocSpec(e, certs, j.certName, props, j.password, input).1)
  {
    JobsOfBounds(lines);
    var j := JobsOf(lines)[k];
    EmptyPasswordSkipsLock(e, certs, j.certName, props, input);
  }

  /** A batch adds one to the counters for every accepted line, never more jobs than lines, and a
      job naming an unloaded certificate is counted as failed. */
  lemma BatchAccounting(e: Engine, host: Host, certs: map<string, Certificate>, props: SignProps,
                        s: Stats, lines: seq<string>)
    ensures var q := JobsOf(lines); var t := Tally(s, Outcomes(e, host, certs, props, q));
      |q| <= |lines|
      && t.jobsDone + t.jobsFailed == s.jobsDone + s.jobsFailed + |q|
      && s.jobsDone <= t.jobsDone <= s.jobsDone + |q|
      && (forall k :: 0 <= k < |q| && q[k].certName !in certs ==> !Outcomes(e, host, certs, props, q)[k])
  {
    JobsOfBounds(lines);
    TallyCounts(s, Outcomes(e, host, certs, props, JobsOf(lines)));
  }

  /** Batches read one after the other are counted as one batch of all their lines. */
  lemma BatchesCompose(e: Engine, host: Host, certs: map<string, Certificate>, props: SignProps,
                       s: Stats, xs: seq<string>, ys: seq<string>)
    ensures Tally(s, Outcomes(e, host, certs, props, JobsOf(xs + ys)))
         == Tally(Tally(s, Outcomes(e, host, certs, props, JobsOf(xs))), Outcomes(e, host, certs, props, JobsOf(ys)))
  {
    JobsOfAppend(xs, ys);
    var a := Outcomes(e, host, certs, props, JobsOf(xs));
    var b := Outcomes(e, host, certs, props, JobsOf(ys));
    OutcomesAppend(e, host, certs, props, JobsOf(xs), JobsOf(ys));
    TallyAppend(s, a, b);
  }
}
