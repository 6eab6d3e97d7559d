/** The SQS-backed queue: receiving a job, and failing it with a delayed re-send. */
module SqsQueue {
  import opened Basics
  import opened Outcomes
  import Backoff

  type Id = nat
  type Receipt = string

  datatype Json = Null | Text(text: string) | Number(n: int) | Object(fields: map<string, Json>)

  /** A nil Go map and a JSON `null` payload are `None`. */
  datatype Job = Job(id: Id, attempts: int, maxAttempts: int, status: string, payload: Option<map<string, Json>>)

  datatype Body = Malformed | Encoded(job: Job)

  const METADATA := "_sqs_metadata"
  const RECEIPT := "sqs_receipt_handle"
  const URL := "sqs_queue_url"

  function Metadata(receipt: Receipt, url: string): map<string, Json> {
    map[RECEIPT := Text(receipt), URL := Text(url)]
  }

  function Tagged(job: Job, receipt: Receipt, url: string): Job
    requires job.payload.Some?
  {
    job.(payload := Some(job.payload.value[METADATA := Object(Metadata(receipt, url))]))
  }

  /** A taken job carries the receipt and the queue it came from, and its own
      payload otherwise unchanged. */
  lemma TaggedMeans(job: Job, receipt: Receipt, url: string, key: string)
    requires job.payload.Some?
    ensures var t := Tagged(job, receipt, url);
            && t == job.(payload := t.payload) && t.payload.Some?
            && "_sqs_metadata" in t.payload.value
            && t.payload.value["_sqs_metadata"] ==
               Object(map["sqs_receipt_handle" := Text(receipt), "sqs_queue_url" := Text(url)])
            && (key != "_sqs_metadata" ==> (key in t.payload.value <==> key in job.payload.value))
            && (key != "_sqs_metadata" && key in t.payload.value ==> t.payload.value[key] == job.payload.value[key])
  {
  }

  /** The payload apart from the queue's own bookkeeping. */
  function Content(job: Job): Option<map<string, Json>> {
    if job.payload.None? then None else Some(job.payload.value - {METADATA})
  }

  // ----- Dequeue -----

  /** What one `ReceiveMessages` call brings. */
  datatype Received = ReceiveError | NoMessage | Got(receipt: Receipt, body: Body)

  datatype Dequeued = Nothing | Panic | Took(job: Job)

  predicate Usable(url: string, got: Received) {
    url != "" && got.Got? && got.body.Encoded?
  }

  predicate Spoiled(url: string, got: Received) {
    url != "" && got.Got? && got.body.Malformed?
  }

  /** The malformed messages among the first `n` polls, in order. */
  function SpoiledUpTo(urls: seq<string>, got: seq<Received>, n: nat): seq<(string, Receipt)>
    requires n <= |urls| == |got|
  {
    if n == 0 then []
    else
      SpoiledUpTo(urls, got, n - 1) +
      (if Spoiled(urls[n - 1], got[n - 1]) then [(urls[n - 1], got[n - 1].receipt)] else [])
  }

  predicate Ascending(xs: seq<nat>) {
    forall i, j :: 0 <= i < j < |xs| ==> xs[i] < xs[j]
  }

  /** They are exactly the polls that brought a malformed message, in order. */
  lemma {:induction false} SpoiledExactly(urls: seq<string>, got: seq<Received>, n: nat) returns (positions: seq<nat>)
    requires n <= |urls| == |got|
    ensures Ascending(positions)
    ensures forall i: nat :: i in positions <==> i < n && urls[i] != "" && got[i].Got? && got[i].body.Malformed?
    ensures |SpoiledUpTo(urls, got, n)| == |positions|
    ensures forall k :: 0 <= k < |positions| ==>
              && positions[k] in positions
              && SpoiledUpTo(urls, got, n)[k] == (urls[positions[k]], got[positions[k]].receipt)
  {
    positions := [];
    if n > 0 {
      var before := SpoiledExactly(urls, got, n - 1);
      positions := before;
      if Spoiled(urls[n - 1], got[n - 1]) {
        positions := before + [n - 1];
        assert forall i: nat :: i in positions <==> i in before || i == n - 1;
      }
    }
  }

  /** `Dequeue` polls the queues in order and takes the first message that is a
      job, deleting the malformed ones it meets. Writing the metadata into a nil
      payload panics. */
  method Dequeue(urls: seq<string>, got: seq<Received>) returns (r: Dequeued, deletes: seq<(string, Receipt)>)
    requires |urls| == |got|
    ensures r.Nothing? ==>
              && (forall i :: 0 <= i < |urls| ==> urls[i] == "" || !got[i].Got? || got[i].body.Malformed?)
              && deletes == SpoiledUpTo(urls, got, |urls|)
    ensures !r.Nothing? ==> exists i ::
              && 0 <= i < |urls| && urls[i] != "" && got[i].Got? && got[i].body.Encoded?
              && (forall j :: 0 <= j < i ==> urls[j] == "" || !got[j].Got? || got[j].body.Malformed?)
              && deletes == SpoiledUpTo(urls, got, i)
              && r == if got[i].body.job.payload.None? then Panic
                      else Took(Tagged(got[i].body.job, got[i].receipt, urls[i]))
  {
    deletes := [];
    for i := 0 to |urls|
      invariant forall j :: 0 <= j < i ==> !Usable(urls[j], got[j])
      invariant deletes == SpoiledUpTo(urls, got, i)
    {
      if urls[i] == "" || !got[i].Got? {
        continue;
      }
      if got[i].body.Malformed? {
        deletes := deletes + [(urls[i], got[i].receipt)];
        continue;
      }
      var job := got[i].body.job;
      if job.payload.None? {
        return Panic, deletes;
      }
      return Took(Tagged(job, got[i].receipt, urls[i])), deletes;
    }
    r := Nothing;
  }

  // ----- Failing a job -----

  /** A queue's undeleted messages by receipt, with the delay each was sent with. */
  datatype Message = Message(job: Job, delay: int)

  datatype Failure = MissingReceipt | MissingUrl | DeleteFailed | SendFailed | Accepted

  predicate HasText(m: map<string, Json>, key: string) {
    key in m && m[key].Text?
  }

  function Retried(job: Job): Job {
    job.(attempts := job.attempts + 1, status := "retrying")
  }

  predicate Resends(job: Job, delay: int) {
    delay > 0 && job.attempts < job.maxAttempts
  }

  class Queue {
    var messages: map<Receipt, Message>
    const platform: int

    constructor (platform: int)
      ensures messages == map[] && this.platform == platform
    {
      messages := map[];
      this.platform := platform;
    }

    /** `MarkCompletedWithMetadata`: delete the message. */
    method MarkCompletedWithMetadata(metadata: map<string, Json>, delete: Outcome) returns (r: Failure)
      modifies this
      ensures r.MissingReceipt? <==> !HasText(metadata, "sqs_receipt_handle")
      ensures r.MissingUrl? <==> HasText(metadata, "sqs_receipt_handle") && !HasText(metadata, "sqs_queue_url")
      ensures r.MissingReceipt? || r.MissingUrl? ==> messages == old(messages)
      ensures !r.MissingReceipt? && !r.MissingUrl? ==>
                && r == (if delete.Errored() then DeleteFailed else Accepted)
                && messages == if delete.Applied() then old(messages) - {metadata["sqs_receipt_handle"].text}
                               else old(messages)
    {
      if !(RECEIPT in metadata && metadata[RECEIPT].Text?) {
        return MissingReceipt;
      }
      if !(URL in metadata && metadata[URL].Text?) {
        return MissingUrl;
      }
      if delete.Applied() {
        messages := messages - {metadata[RECEIPT].text};
      }
      r := if delete.Errored() then DeleteFailed else Accepted;
    }

    /** `MarkFailedWithMetadata`: delete the message first; then, with attempts and
        a positive delay left, send the job again with one more attempt. `next` is
        the receipt the new message will have. */
    method MarkFailedWithMetadata(job: Job, metadata: map<string, Json>, delay: int,
                                  delete: Outcome, send: Outcome, next: Receipt)
      returns (r: Failure, job': Job)
      modifies this
      ensures r.MissingReceipt? <==> !HasText(metadata, "sqs_receipt_handle")
      ensures r.MissingUrl? <==> HasText(metadata, "sqs_receipt_handle") && !HasText(metadata, "sqs_queue_url")
      ensures r.MissingReceipt? || r.MissingUrl? ==> messages == old(messages) && job' == job
      ensures HasText(metadata, RECEIPT) && HasText(metadata, URL) ==>
                && messages == Failed(old(messages), metadata[RECEIPT].text, job, delay, delete, send, next, platform)
                && (r.DeleteFailed? <==> delete.Errored())
                && (r.SendFailed? <==> delete.Done? && Resends(job, delay) && send.Errored())
                && job' == (if delete.Done? && delay > 0 && job.attempts < job.maxAttempts
                            then Job(job.id, job.attempts + 1, job.maxAttempts, "retrying", job.payload) else job)
                && messages - {metadata[RECEIPT].text, next} == old(messages) - {metadata[RECEIPT].text, next}
                && (delete.Applied() && next != metadata[RECEIPT].text ==> metadata[RECEIPT].text !in messages)
                && (delete.Done? && delay > 0 && job.attempts < job.maxAttempts && send.Applied() ==>
                      && next in messages && messages[next].job == job' && messages[next].delay <= 900
                      && (delay < 0x8000_0000 * 1_000_000_000 ==>
                            messages[next].delay == if delay / 1_000_000_000 > 900 then 900 else delay / 1_000_000_000))
    {
      job' := job;
      if !(RECEIPT in metadata && metadata[RECEIPT].Text?) {
        return MissingReceipt, job';
      }
      if !(URL in metadata && metadata[URL].Text?) {
        return MissingUrl, job';
      }
      if delete.Applied() {
        messages := messages - {metadata[RECEIPT].text};
      }
      if delete.Errored() {
        return DeleteFailed, job';
      }
      if delay > 0 && job.attempts < job.maxAttempts {
        var seconds := Backoff.DelaySeconds(delay, platform);
        job' := job.(attempts := job.attempts + 1, status := "retrying");
        if send.Applied() {
          messages := messages[next := Message(job', seconds)];
        }
        if send.Errored() {
          return SendFailed, job';
        }
      }
      r := Accepted;
    }
  }

  /** The queue after a failure is reported for the message `receipt`. */
  function Failed(messages: map<Receipt, Message>, receipt: Receipt, job: Job, delay: int,
                  delete: Outcome, send: Outcome, next: Receipt, platform: int): map<Receipt, Message>
  {
    var left := if delete.Applied() then messages - {receipt} else messages;
    if delete.Done? && Resends(job, delay) && send.Applied()
    then left[next := Message(Retried(job), Backoff.DelaySeconds(delay, platform))]
    else left
  }
}
