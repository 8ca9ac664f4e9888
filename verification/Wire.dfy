// Wire-neutral values of the Fabric protocol: work definitions with their
// identity, leases, and result batches.
module Wire {
  import opened Base

  // One evidence-grade capture kept for a (hostname, year) pair. `provenance`
  // stands for source id, locator, source time, record type and original URL.
  datatype Witness = Witness(host: string, year: int, provenance: string)

  datatype Group = Group(host: string, witnesses: seq<Witness>, captures: nat)

  // One JSON object inside a result batch.
  datatype Item =
    | WitnessGroup(group: Group)
    | Summary(records: nat, bytesRead: nat, requests: nat)
    | OtherKind(kind: string)

  // A cursor text is either "byte:<n>" or text with another meaning.
  datatype Cursor = Byte(offset: nat) | Foreign(text: string)

  datatype TaskClass = ResidualQuery | SourceShard | HostBatch | EvidenceBatch | RegionProbe

  // A payload is its canonical JSON text.
  const EMPTY_PAYLOAD := "{}"

  datatype WorkDefinition = WorkDefinition(
    producer: string,
    taskClass: TaskClass,
    inputIdentity: string,
    payload: string,
    partition: string,
    algorithmVersion: string,
    requiredCapabilities: seq<string>,
    requiredProviders: seq<string>,
    priority: real,
    maxAttempts: nat,
    notBefore: real)

  // What the constructor of a work definition insists on.
  predicate ValidDefinition(w: WorkDefinition) {
    w.maxAttempts >= 1 && w.notBefore >= 0.0
  }

  predicate IsSpace(c: char) {
    c == ' ' || c == '\t' || c == '\n' || c == '\r'
  }

  function StripLeft(s: string): string {
    if s != "" && IsSpace(s[0]) then StripLeft(s[1..]) else s
  }

  function StripRight(s: string): string {
    if s != "" && IsSpace(s[|s| - 1]) then StripRight(s[..|s| - 1]) else s
  }

  function Strip(s: string): string {
    StripRight(StripLeft(s))
  }

  // The hash of the five identity fields, collision-free by assumption: the
  // key is the tuple of what is hashed.
  datatype WorkKey = WorkKey(producer: string, input: string, payload: string, partition: string, version: string)

  function WorkKeyOf(w: WorkDefinition): WorkKey {
    WorkKey(Strip(w.producer), Strip(w.inputIdentity), w.payload, Strip(w.partition), Strip(w.algorithmVersion))
  }

  // Likewise for a batch identity. Task ids are hexadecimal, so stripping them
  // is the identity.
  datatype BatchId = BatchId(task: Id, seqNo: nat)

  datatype ResultBatch = ResultBatch(
    task: Id,
    generation: nat,
    seqNo: nat,
    results: seq<Item>,
    artifacts: string,
    cursorAfter: Option<Cursor>,
    final: bool)
  {
    function Key(): BatchId { BatchId(task, seqNo) }
  }

  datatype Lease = Lease(
    task: Id,
    key: WorkKey,
    worker: Id,
    instance: Id,
    generation: nat,
    deadline: real,
    attempt: nat,
    work: WorkDefinition,
    cursor: Option<Cursor>,
    nextSeq: nat)
}
