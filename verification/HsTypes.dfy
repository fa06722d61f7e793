/** Chained HotStuff: blocks, certificates, votes and the state of a replica, within one view and one epoch. */
module HsTypes {
  import opened Options

  type Id = nat

  /** The identity of a block is an injective digest of its contents, so it is modelled by those contents. */
  datatype BlockId = Genesis | Digest(view: nat, height: nat, parent: BlockId, cmd: string)

  function Height(b: BlockId): nat {
    if b.Genesis? then 0 else b.height
  }

  datatype Vote = Vote(height: nat, node: BlockId, voter: Id)

  /** A quorum certificate: the voters whose signatures on (height, node) it carries. */
  datatype QC = QC(node: BlockId, height: nat, voters: set<Id>)

  /** A block as it is sent and stored. Its justification is not part of its identity. */
  datatype Block = Block(id: BlockId, view: nat, height: nat, parent: Option<BlockId>, cmd: string, justify: QC)

  datatype Proposal = Proposal(block: Block, from: Id)

  /** The members, the leader of the view, and the quorum. */
  datatype Config = Config(members: set<Id>, leader: Id)

  function Faults(c: Config): nat
    requires c.members != {}
  {
    (|c.members| - 1) / 3
  }

  function Quorum(c: Config): nat
    requires c.members != {}
  {
    2 * Faults(c) + 1
  }

  /** Which signatures verify: everything a Byzantine member cares to sign, and what correct members have signed. */
  datatype Keys = Keys(byzantine: set<Id>, signed: set<Vote>)

  predicate Verifies(k: Keys, v: Vote) {
    v.voter in k.byzantine || v in k.signed
  }

  /** The records of the durable log. */
  datatype Record =
    | BlockRecord(block: Block)
    | QCRecord(qc: QC)
    | AppliedRecord(exec: BlockId)
    | VotedRecord(height: nat)

  /** What a handler does to the world, in order: durable writes, executed commands, votes that leave the replica. */
  datatype Effect = Write(rec: Record) | Run(block: BlockId) | Send(vote: Vote)

  datatype Replica = Replica(
    id: Id, blocks: map<BlockId, Block>, qcHigh: QC, head: BlockId, bLock: BlockId, bExec: BlockId, vHeight: nat,
    votes: map<BlockId, set<Id>>, qcFormed: set<BlockId>, committed: seq<BlockId>, journal: seq<Effect>)

  function GenesisQC(c: Config): QC {
    QC(Genesis, 0, c.members)
  }

  function GenesisBlock(c: Config): Block {
    Block(Genesis, 0, 0, None, "", GenesisQC(c))
  }

  function NewReplica(c: Config, id: Id): Replica {
    Replica(id, map[Genesis := GenesisBlock(c)], GenesisQC(c), Genesis, Genesis, Genesis, 0, map[], {}, [], [])
  }
}
