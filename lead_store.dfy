/** The lead record the dashboard displays and the booking form creates, and
    the browser-local storage slot `summit_leads` that holds the JSON array of
    them. */
module LeadStore {
  import opened Wrappers
  import opened Types

  /** One submitted qualification audit, with the fields of the dashboard's
      record shape. `bookedAt` is optional; nothing in the site sets it. */
  datatype LeadRecord = LeadRecord(
    id: string,
    name: string,
    email: string,
    phone: string,
    timezone: string,
    price: PriceRange,
    breakdown: SettingBreakdown,
    flow: LeadFlowStatus,
    closing: SalesClosingMethod,
    status: LeadStatus,
    bookedAt: Option<string>,
    auditAt: string,
    canInvest: bool,
    notes: string,
    owner: string,
    genMethods: seq<LeadGenMethod>)

  /** What `JSON.parse(localStorage.getItem('summit_leads') || '[]')` meets: no
      item (or an empty one), text that does not parse as an array of
      records, or the records it encodes, newest first. */
  datatype Slot = Missing | Corrupt | Present(records: seq<LeadRecord>)

  /** `localStorage`, restricted to the one key. */
  class LocalStore {
    var slot: Slot

    constructor (initial: Slot)
      ensures slot == initial
    {
      slot := initial;
    }
  }
}
