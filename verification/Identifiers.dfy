/** Strongly typed identifiers. A UUID's text form is 36 characters long and
    contains no colon (section 4 of RFC 9562); nothing else about it is used. */
module Identifiers {
  type Uuid = s: string | |s| == 36 && ':' !in s
    witness "00000000-0000-0000-0000-000000000000"

  datatype AlertId = AlertId(uuid: Uuid)
  datatype CaseId = CaseId(uuid: Uuid)
  datatype ReportId = ReportId(uuid: Uuid)
  datatype ConsumerId = ConsumerId(uuid: Uuid)
  datatype SubscriptionId = SubscriptionId(uuid: Uuid)
  datatype OrganizationId = OrganizationId(uuid: Uuid)
  datatype ReviewerId = ReviewerId(uuid: Uuid)

  /** A delivery's own id. Its text form is never inspected, and a new one can always be minted. */
  datatype DeliveryId = DeliveryId(number: nat)
}
