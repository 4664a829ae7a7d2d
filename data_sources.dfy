/**
 * A diffable data source as the subscriber and `apply(to:)` see it, the subscriber that
 * feeds it snapshots from a publisher, and `apply(to:animatingDifferences:)`.
 */
module DataSources {
  import opened Views
  import opened Snapshots

  /** One call of the data source's `apply`: the snapshot and whether differences were animated. */
  datatype Application = Application(snapshot: Snapshot, animated: bool)

  /**
   * `UICollectionViewDiffableDataSource`, reduced to the snapshot it currently shows and
   * the record of every `apply` made on it. How the collection view gets from one snapshot
   * to the next (diff, animation) is the toolkit's and is not part of this model.
   */
  class DataSource {
    var current: Snapshot
    var applied: seq<Application>

    constructor ()
      ensures current == Empty() && applied == []
    {
      current := Empty();
      applied := [];
    }

    /** `apply(_:animatingDifferences:)`: the given snapshot becomes the current one. */
    method Apply(snapshot: Snapshot, animated: bool)
      modifies this
      ensures current == snapshot
      ensures applied == old(applied) + [Application(snapshot, animated)]
    {
      current := snapshot;
      applied := applied + [Application(snapshot, animated)];
    }

    /** `subscriber`: a new subscriber holding this data source. */
    method Subscriber() returns (subscriber: DiffableDataSourceSubscriber)
      ensures fresh(subscriber) && subscriber.dataSource == this
    {
      subscriber := new DiffableDataSourceSubscriber(this);
    }
  }

  /**
   * `DiffableDataSourceSubscriber`: holds its data source strongly until the publisher
   * completes, applies every snapshot it receives, and always asks for more.
   */
  class DiffableDataSourceSubscriber {
    var dataSource: DataSource?

    constructor (dataSource: DataSource)
      ensures this.dataSource == dataSource
    {
      this.dataSource := dataSource;
    }

    /** `receive(subscription:)`: the subscriber requests an unlimited number of snapshots. */
    method ReceiveSubscription() returns (request: Demand)
      ensures request == Unlimited
    {
      request := Unlimited;
    }

    /**
     * `receive(_:)`: a held data source applies the snapshot, animated (the toolkit's default),
     * exactly once; without one nothing happens. Either way the demand stays unlimited.
     */
    method ReceiveInput(input: Snapshot) returns (more: Demand)
      modifies dataSource
      ensures more == Unlimited
      ensures dataSource == old(dataSource)
      ensures dataSource != null ==>
        dataSource.current == input &&
        dataSource.applied == old(dataSource.applied) + [Application(input, true)]
    {
      if dataSource != null {
        dataSource.Apply(input, true);
      }
      more := Unlimited;
    }

    /** `receive(completion:)`: the data source is released; doing so again changes nothing. */
    method ReceiveCompletion()
      modifies this
      ensures dataSource == null
    {
      dataSource := null;
    }
  }

  /**
   * `apply(to:animatingDifferences:)`: with a data source, applies the snapshot exactly once
   * and the returned publisher completes after the apply finishes; without one, nothing is
   * applied and the returned publisher never emits. `completes` says which.
   */
  method ApplyTo(snapshot: Snapshot, dataSource: DataSource?, animated: bool := true) returns (completes: bool)
    modifies dataSource
    ensures completes <==> dataSource != null
    ensures dataSource != null ==>
      dataSource.current == snapshot &&
      dataSource.applied == old(dataSource.applied) + [Application(snapshot, animated)]
  {
    completes := false;
    if dataSource != null {
      dataSource.Apply(snapshot, animated);
      completes := true;
    }
  }

  /** Once completed, a subscriber applies nothing: a later snapshot leaves the data source as it was. */
  method CompletedSubscriberIgnoresInput(subscriber: DiffableDataSourceSubscriber, source: DataSource, input: Snapshot)
    requires subscriber.dataSource == source
    modifies subscriber, source
    ensures subscriber.dataSource == null
    ensures unchanged(source)
  {
    subscriber.ReceiveCompletion();
    subscriber.ReceiveCompletion();
    var more := subscriber.ReceiveInput(input);
  }
}
