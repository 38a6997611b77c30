/** The stored entities: the columns of each table other than its `id`.
    Dates and timestamps are their ISO text; absent (NULL) values are `None`. */
module Schema {
  import opened Wrappers
  import opened Store

  /** A freight brokerage contact. `createdAt` is set by the data service. */
  datatype Broker = Broker(name: string, email: string, createdAt: string)

  /** A shipment, assigned to one broker. */
  datatype Load = Load(
    loadIdName: string,
    assignedBrokerId: string,
    pickupDate: Option<string>,
    deliveryDate: Option<string>,
    status: string)

  /** The three statuses a load may have. */
  const LoadStatuses: seq<string> := ["Dispatched", "Delivered", "Invoiced"]

  /** A broker's review of a load. Booleans are the columns' values after
      the data service has read the submitted text; a rating that was not a
      number is stored as NULL. */
  datatype Review = Review(
    loadUuid: string,
    brokerId: string,
    onTimePickup: bool,
    onTimeDelivery: bool,
    useBtfsAgain: string,
    communicationRating: Option<int>,
    performanceRating: Option<int>,
    comment: Option<string>,
    showOnSite: bool,
    createdAt: string)

  /** A row of the delivery-tracking table. */
  datatype DeliveryLoad = DeliveryLoad(
    brokerName: string,
    pickupDate: string,
    totalMiles: real,
    pickupState: string,
    deliveryState: string,
    loadCompleted: bool,
    createdAt: string)

  // ---------------------------------------------------------------------------
  // Joined columns: `brokers ( name )` and `loads ( loadIdName )`
  // ---------------------------------------------------------------------------

  /** The name of the broker a foreign key points at; absent when no broker
      row has that id. */
  function BrokerName(brokers: seq<Row<Broker>>, id: string): Option<string> {
    match Find(brokers, id)
    case Some(b) => Some(b.name)
    case None => None
  }

  /** The `loadIdName` of the load a foreign key points at. */
  function LoadName(loads: seq<Row<Load>>, id: string): Option<string> {
    match Find(loads, id)
    case Some(l) => Some(l.loadIdName)
    case None => None
  }
}
