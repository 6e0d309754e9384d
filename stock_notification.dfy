/**
 * The notification gate and the publisher behind it. The gate is one boolean; the publisher
 * makes one send attempt per enabled notification and swallows a failed send.
 */
module StockNotification {
  import opened Basics
  import opened StockEvents

  /** One publish request as the broker client received it. */
  datatype Message = Message(queue: string, event: StockChangeEvent)

  const DEFAULT_QUEUE_NAME: string := "stock-changes"
  const DEFAULT_ENABLED: bool := true

  /** The broker client (`convertAndSend`): every call is logged, whether or not it is delivered. */
  class QueueTransport {
    ghost var sent: seq<Message>

    constructor ()
      ensures sent == []
    {
      sent := [];
    }

    /** One send attempt; `delivered` is false when the broker or the connection failed. */
    method ConvertAndSend(queue: string, event: StockChangeEvent) returns (delivered: bool)
      modifies this
      ensures sent == old(sent) + [Message(queue, event)]
    {
      delivered :| true;
      sent := sent + [Message(queue, event)];
    }
  }

  class StockChangeNotificationService {
    var notificationsEnabled: bool
    const stockChangeQueueName: string
    const transport: QueueTransport

    /** Property injection: an unset queue name or flag takes its documented default. */
    constructor (transport: QueueTransport, configuredQueueName: Option<string>, configuredEnabled: Option<bool>)
      ensures this.transport == transport
      ensures stockChangeQueueName == configuredQueueName.GetOr(DEFAULT_QUEUE_NAME)
      ensures notificationsEnabled == configuredEnabled.GetOr(DEFAULT_ENABLED)
    {
      this.transport := transport;
      stockChangeQueueName := configuredQueueName.GetOr(DEFAULT_QUEUE_NAME);
      notificationsEnabled := configuredEnabled.GetOr(DEFAULT_ENABLED);
    }

    /**
     * Publishes `event` to the configured queue when the gate is open. Exactly one send is
     * attempted; its failure is dropped, with no retry and no buffering. Only the transport's
     * log changes: the flag and the queue name are outside the frame.
     */
    method NotifyStockChange(event: StockChangeEvent)
      modifies transport
      ensures notificationsEnabled ==> transport.sent == old(transport.sent) + [Message(stockChangeQueueName, event)]
      ensures !notificationsEnabled ==> transport.sent == old(transport.sent)
    {
      if !notificationsEnabled {
        return;
      }
      var delivered := transport.ConvertAndSend(stockChangeQueueName, event);
      // A failed send is only logged by the source: nothing else happens.
    }

    method SetNotificationsEnabled(enabled: bool)
      modifies this
      ensures notificationsEnabled == enabled
    {
      notificationsEnabled := enabled;
    }

    method IsNotificationsEnabled() returns (enabled: bool)
      ensures enabled == notificationsEnabled
    {
      enabled := notificationsEnabled;
    }
  }

  /**
   * An event offered while the gate is closed is gone: reopening the gate sends only what is
   * offered afterwards, and the getter reads back what the setter stored.
   */
  method SuppressedEventIsNeverSent(first: StockChangeEvent, second: StockChangeEvent)
    returns (reopened: bool, ghost sent: seq<Message>)
    ensures reopened
    ensures sent == [Message(DEFAULT_QUEUE_NAME, second)]
  {
    var transport := new QueueTransport();
    var notifier := new StockChangeNotificationService(transport, None, None);
    notifier.SetNotificationsEnabled(false);
    notifier.NotifyStockChange(first);
    notifier.SetNotificationsEnabled(true);
    reopened := notifier.IsNotificationsEnabled();
    notifier.NotifyStockChange(second);
    sent := transport.sent;
  }
}
