/** Hash-bound records: approvals, the authenticated replies they rest on, and deliveries. */
module Receipts {
  import opened Wrappers
  import opened Artifacts

  /** An authenticated inbound reply, as its closed document stores it. */
  datatype Reply = Reply(chatId: string, senderId: string, messageId: nat, replyTo: nat, text: string)

  datatype ApprovalReceipt = ApprovalReceipt(kind: Kind, path: Path, sha256: Sha256, approver: string,
                                             approvedAt: nat, inbound: Option<Reply>)

  /** `ApprovalReceipt.verify`: the approved bytes are still there. */
  predicate Verifies(r: ApprovalReceipt, files: Files) {
    r.path in files && files[r.path] == r.sha256
  }

  /** Episodes, numbered in the order the outbox query sorts them. */
  type Episode = nat

  type ChatId = string

  /** A delivery slot is one kind of artifact of one episode. */
  datatype SlotKey = SlotKey(episode: Episode, kind: Kind)

  datatype Intent = Intent(episode: Episode, approval: ApprovalReceipt, chatId: ChatId)

  datatype DeliveryReceipt = DeliveryReceipt(intent: Intent, messageId: int)
}
