/**
 * The message bubble: a queue of messages kept in non-increasing priority
 * order (a stable sort after every push), the text currently shown and
 * whether it is visible. The delayed "show next" that hiding schedules is
 * an explicit event, ShowTimerFired, counted by pendingShows.
 *
 * The clock (Date.now) is a parameter; the configuration-driven auto-hide
 * timer is outside the model (see README).
 */
module MessageService {
  import opened StableSort

  datatype MessagePriority = Low | Normal | High

  /** priorityValues: low, normal and high weigh 0, 5 and 10. */
  function PriorityValue(p: MessagePriority): (v: int)
    ensures 0 <= v <= 10
    ensures v == 0 <==> p == Low
    ensures v == 10 <==> p == High
  {
    match p
    case Low => 0
    case Normal => 5
    case High => 10
  }

  datatype Message = Message(text: string, priority: int, timestamp: int)

  function Priority(m: Message): int { m.priority }

  class MessageBox {
    var currentMessage: string
    var messageQueue: seq<Message>
    var isVisible: bool
    /** Show-next timers scheduled by HideMessage that have not fired yet. */
    var pendingShows: nat

    /** The queue is always in non-increasing priority order. */
    ghost predicate Valid()
      reads this
    {
      SortedDesc(messageQueue, Priority)
    }

    constructor ()
      ensures Valid()
      ensures currentMessage == "" && messageQueue == [] && !isVisible && pendingShows == 0
    {
      currentMessage := "";
      messageQueue := [];
      isVisible := false;
      pendingShows := 0;
    }

    /** addMessage: pushes the message, stably sorts the queue by descending priority,
        and shows the head when nothing is visible. The new message lands after every
        queued message of at least its priority and before the others. */
    method AddMessage(text: string, priority: MessagePriority, now: int)
      requires Valid()
      modifies this
      ensures Valid()
      ensures Added(old(messageQueue), old(isVisible), old(currentMessage), Message(text, PriorityValue(priority), now))
      ensures pendingShows == old(pendingShows)
    {
      var m := Message(text, PriorityValue(priority), now);
      Enqueue(m);
      if !isVisible && |messageQueue| > 0 {
        ShowNextMessage();
      }
    }

    /** The push and stable sort inside addMessage: the message lands after every queued
        message of at least its priority and before the others. */
    method Enqueue(m: Message)
      requires Valid()
      modifies this
      ensures Valid()
      ensures var n := CountAtLeast(old(messageQueue), m.priority, Priority);
              messageQueue == old(messageQueue)[..n] + [m] + old(messageQueue)[n..]
      ensures currentMessage == old(currentMessage) && isVisible == old(isVisible)
      ensures pendingShows == old(pendingShows)
    {
      ghost var q := messageQueue;
      SortAfterPush(q, m, Priority);
      InsertDescSorted(q, m, Priority);
      InsertDescSplits(q, m, Priority);
      messageQueue := SortDesc(messageQueue + [m], Priority);
    }

    /** showNextMessage: shifts the head of the queue into view, or clears the view when
        the queue is empty. */
    method ShowNextMessage()
      requires Valid()
      modifies this
      ensures Valid()
      ensures if |old(messageQueue)| > 0 then
                messageQueue == old(messageQueue)[1..]
                && currentMessage == old(messageQueue)[0].text && isVisible
              else
                messageQueue == [] && currentMessage == "" && !isVisible
      ensures pendingShows == old(pendingShows)
    {
      if |messageQueue| > 0 {
        var next := messageQueue[0];
        messageQueue := messageQueue[1..];
        currentMessage := next.text;
        isVisible := true;
      } else {
        currentMessage := "";
        isVisible := false;
      }
    }

    /** hideMessage: clears the view, keeps the queue, and schedules one show-next when
        the queue still holds messages. */
    method HideMessage()
      requires Valid()
      modifies this
      ensures Valid()
      ensures !isVisible && currentMessage == "" && messageQueue == old(messageQueue)
      ensures pendingShows == old(pendingShows) + (if |messageQueue| > 0 then 1 else 0)
    {
      isVisible := false;
      currentMessage := "";
      if |messageQueue| > 0 {
        pendingShows := pendingShows + 1;
      }
    }

    /** The 500 ms timer that hideMessage scheduled fires: it runs showNextMessage on
        whatever the queue holds by then. */
    method ShowTimerFired()
      requires Valid() && pendingShows > 0
      modifies this
      ensures Valid()
      ensures pendingShows == old(pendingShows) - 1
      ensures if |old(messageQueue)| > 0 then
                messageQueue == old(messageQueue)[1..]
                && currentMessage == old(messageQueue)[0].text && isVisible
              else
                messageQueue == [] && currentMessage == "" && !isVisible
    {
      pendingShows := pendingShows - 1;
      ShowNextMessage();
    }

    /** clearAllMessages: empties the queue and the view; timers already scheduled stay
        scheduled. */
    method ClearAllMessages()
      modifies this
      ensures Valid()
      ensures messageQueue == [] && currentMessage == "" && !isVisible
      ensures pendingShows == old(pendingShows)
    {
      messageQueue := [];
      currentMessage := "";
      isVisible := false;
    }

    /** showWeatherMessage: the weather text at high priority. */
    method ShowWeatherMessage(weatherInfo: string, now: int)
      requires Valid()
      modifies this
      ensures Valid()
      ensures Added(old(messageQueue), old(isVisible), old(currentMessage),
                    Message(WeatherPrefix + weatherInfo, 10, now))
      ensures pendingShows == old(pendingShows)
    {
      AddMessage(WeatherPrefix + weatherInfo, High, now);
    }

    /** showReminderMessage: the reminder text at normal priority. */
    method ShowReminderMessage(reminder: string, now: int)
      requires Valid()
      modifies this
      ensures Valid()
      ensures Added(old(messageQueue), old(isVisible), old(currentMessage),
                    Message(ReminderPrefix + reminder, 5, now))
      ensures pendingShows == old(pendingShows)
    {
      AddMessage(ReminderPrefix + reminder, Normal, now);
    }

    /** showSystemMessage: the system text at low priority. */
    method ShowSystemMessage(message: string, now: int)
      requires Valid()
      modifies this
      ensures Valid()
      ensures Added(old(messageQueue), old(isVisible), old(currentMessage),
                    Message(SystemPrefix + message, 0, now))
      ensures pendingShows == old(pendingShows)
    {
      AddMessage(SystemPrefix + message, Low, now);
    }

    /** The state after adding m to the given queue, visibility and text. */
    ghost predicate Added(q: seq<Message>, wasVisible: bool, wasShowing: string, m: Message)
      reads this
    {
      var n := CountAtLeast(q, m.priority, Priority);
      var sorted := q[..n] + [m] + q[n..];
      if wasVisible then
        messageQueue == sorted && currentMessage == wasShowing && isVisible
      else
        messageQueue == sorted[1..] && currentMessage == sorted[0].text && isVisible
    }
  }

  const WeatherPrefix: string := "今日天气: "
  const ReminderPrefix: string := "提醒: "
  const SystemPrefix: string := "系统: "

  /** Messages leave the queue highest priority first and, within one priority, in the
      order they arrived: adding m to a sorted queue keeps every message of at least
      m's priority ahead of it and every lower one behind it, and keeps arrival order
      within each priority. */
  lemma {:induction false} EnqueueOrder(q: seq<Message>, m: Message)
    requires SortedDesc(q, Priority)
    ensures var r := SortDesc(q + [m], Priority);
            && SortedDesc(r, Priority)
            && multiset(r) == multiset(q) + multiset{m}
            && (forall k :: WithKey(r, Priority, k)
                  == WithKey(q, Priority, k) + (if k == m.priority then [m] else []))
  {
    SortAfterPush(q, m, Priority);
    InsertDescSorted(q, m, Priority);
    InsertDescPermutes(q, m, Priority);
    forall k ensures WithKey(SortDesc(q + [m], Priority), Priority, k)
                     == WithKey(q, Priority, k) + (if k == m.priority then [m] else []) {
      InsertDescStable(q, m, Priority, k);
    }
  }
}
