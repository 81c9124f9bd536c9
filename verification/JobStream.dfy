/**
 The part of Redis Streams the job queue rests on (pkg/queue/job_queue.go): entries ordered by id, a
 last-delivered cursor and the pending entries list (PEL) of the consumer group. The map from id to payload
 stands for the ordered entry list; ids grow with every XADD and are never reused.
 */
module JobStream {
  import opened Protocol

  type EntryId = nat

  /** An entry's job_id field and its data field, which is either corrupt or a job message. */
  datatype Payload = Corrupt(jobId: JobId) | Job(jobId: JobId, msg: JobMessage)

  datatype Stream = Stream(
    entries: map<EntryId, Payload>, nextId: EntryId, cursor: EntryId, pel: map<EntryId, WorkerId>)

  ghost predicate Valid(s: Stream) {
    && s.cursor < s.nextId
    && (forall id :: id in s.entries ==> 0 < id < s.nextId)
    && (forall id :: id in s.pel ==> id in s.entries && id <= s.cursor)
  }

  /** A live entry can still reach a worker: undelivered, or pending for some consumer. */
  predicate Live(s: Stream, id: EntryId) {
    id in s.entries && (s.cursor < id || id in s.pel)
  }

  /** The entry that XREADGROUP ">" hands out next. */
  ghost predicate IsNext(s: Stream, id: EntryId) {
    && id in s.entries && s.cursor < id
    && forall k :: k in s.entries && s.cursor < k ==> id <= k
  }

  function Owned(s: Stream, w: WorkerId): set<EntryId> {
    set id | id in s.pel && s.pel[id] == w
  }

  function Enqueue(s: Stream, p: Payload): Stream {
    s.(entries := s.entries[s.nextId := p], nextId := s.nextId + 1)
  }

  function Deliver(s: Stream, w: WorkerId, id: EntryId): Stream {
    s.(cursor := id, pel := s.pel[id := w])
  }

  /** XACK followed by XDEL. */
  function Ack(s: Stream, id: EntryId): Stream {
    s.(entries := s.entries - {id}, pel := s.pel - {id})
  }

  /** XCLAIM moves pending entries to another consumer; ids that are not pending are ignored. */
  function Claim(s: Stream, ids: set<EntryId>, target: WorkerId): Stream {
    s.(pel := map id | id in s.pel :: if id in ids then target else s.pel[id])
  }

  /** XGROUP DELCONSUMER forgets the consumer together with everything still pending for it. */
  function DelConsumer(s: Stream, w: WorkerId): Stream {
    s.(pel := map id | id in s.pel && s.pel[id] != w :: s.pel[id])
  }
}
