/**
 * The entity shapes of the app: clients, estimates with their line items, and
 * job-site photos. A `Date` field is an `Instant`; an optional field is an `Option`.
 */
module Types {

  datatype Option<+T> = None | Some(value: T) {
    function GetOr(default: T): T {
      match this
      case Some(v) => v
      case None => default
    }
  }

  datatype Result<+R, +E> = Success(value: R) | Failure(error: E)

  /** A clock reading, in milliseconds since the epoch. */
  datatype Instant = Instant(epochMillis: int)

  /** A client: id, name, createdAt and updatedAt always present; contact details optional. */
  datatype Client = Client(
    id: string,
    name: string,
    email: Option<string>,
    phone: Option<string>,
    address: Option<string>,
    notes: Option<string>,
    createdAt: Instant,
    updatedAt: Instant)
  {
    /** The fields a caller supplies to `addClient` (everything but id and timestamps). */
    function Fields(): ClientFields {
      ClientFields(name, email, phone, address, notes)
    }
  }

  /** `Omit<Client, 'id' | 'createdAt' | 'updatedAt'>`. */
  datatype ClientFields = ClientFields(
    name: string,
    email: Option<string>,
    phone: Option<string>,
    address: Option<string>,
    notes: Option<string>)
  {
    /** The record the repository stores: the caller's fields, one id, one timestamp for both dates. */
    function Stamp(id: string, now: Instant): (c: Client)
      ensures c.Fields() == this
      ensures c.id == id && c.createdAt == now && c.updatedAt == now
    {
      Client(id, name, email, phone, address, notes, now, now)
    }
  }

  /** A line item keeps its own total next to the quantity and unit price it came from. */
  datatype LineItem = LineItem(
    id: string,
    description: string,
    quantity: real,
    unitPrice: real,
    total: real)

  datatype EstimateStatus = Draft | Sent | Accepted | Rejected

  /** The text a status is written as. */
  function StatusName(s: EstimateStatus): string {
    match s
    case Draft => "draft"
    case Sent => "sent"
    case Accepted => "accepted"
    case Rejected => "rejected"
  }

  /** The status a text denotes, if it is one of the four status names. */
  function ParseStatus(t: string): (r: Option<EstimateStatus>)
    ensures r.Some? ==> StatusName(r.value) == t
  {
    if t == "draft" then Some(Draft)
    else if t == "sent" then Some(Sent)
    else if t == "accepted" then Some(Accepted)
    else if t == "rejected" then Some(Rejected)
    else None
  }

  /** Each status is recovered from its name, so the four names are distinct. */
  lemma StatusNameRoundTrip(s: EstimateStatus)
    ensures ParseStatus(StatusName(s)) == Some(s)
  {
  }

  /**
   * An estimate. It refers to its client by `clientId` only; nothing requires a
   * client with that id to exist.
   */
  datatype Estimate = Estimate(
    id: string,
    clientId: string,
    title: string,
    description: Option<string>,
    lineItems: seq<LineItem>,
    subtotal: real,
    tax: real,
    total: real,
    status: EstimateStatus,
    createdAt: Instant,
    updatedAt: Instant)
  {
    function Fields(): EstimateFields {
      EstimateFields(clientId, title, description, lineItems, subtotal, tax, total, status)
    }
  }

  /** `Omit<Estimate, 'id' | 'createdAt' | 'updatedAt'>`. */
  datatype EstimateFields = EstimateFields(
    clientId: string,
    title: string,
    description: Option<string>,
    lineItems: seq<LineItem>,
    subtotal: real,
    tax: real,
    total: real,
    status: EstimateStatus)
  {
    /** The stored estimate: the caller's fields unchanged (nothing recomputed), plus id and timestamps. */
    function Stamp(id: string, now: Instant): (e: Estimate)
      ensures e.Fields() == this
      ensures e.id == id && e.createdAt == now && e.updatedAt == now
    {
      Estimate(id, clientId, title, description, lineItems, subtotal, tax, total, status, now, now)
    }
  }

  datatype PhotoType = Before | After | Progress

  function PhotoTypeName(p: PhotoType): string {
    match p
    case Before => "before"
    case After => "after"
    case Progress => "progress"
  }

  function ParsePhotoType(t: string): (r: Option<PhotoType>)
    ensures r.Some? ==> PhotoTypeName(r.value) == t
  {
    if t == "before" then Some(Before)
    else if t == "after" then Some(After)
    else if t == "progress" then Some(Progress)
    else None
  }

  lemma PhotoTypeNameRoundTrip(p: PhotoType)
    ensures ParsePhotoType(PhotoTypeName(p)) == Some(p)
  {
  }

  /**
   * A photo: created once and never updated, so it has createdAt but no updatedAt.
   * Its client and estimate references are optional plain ids.
   */
  datatype Photo = Photo(
    id: string,
    uri: string,
    clientId: Option<string>,
    estimateId: Option<string>,
    caption: Option<string>,
    photoType: Option<PhotoType>,
    createdAt: Instant)
  {
    function Fields(): PhotoFields {
      PhotoFields(uri, clientId, estimateId, caption, photoType)
    }
  }

  /** `Omit<Photo, 'id' | 'createdAt'>`. */
  datatype PhotoFields = PhotoFields(
    uri: string,
    clientId: Option<string>,
    estimateId: Option<string>,
    caption: Option<string>,
    photoType: Option<PhotoType>)
  {
    /** The stored photo: the caller's fields plus an id and a creation time. */
    function Stamp(id: string, now: Instant): (p: Photo)
      ensures p.Fields() == this
      ensures p.id == id && p.createdAt == now
    {
      Photo(id, uri, clientId, estimateId, caption, photoType, now)
    }
  }
}
