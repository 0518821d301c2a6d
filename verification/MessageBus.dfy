/** Bounded first-in first-out queues, one per task name. */
module MessageBus {
  import opened Common

  const CONTROL_TASK: string := "ControlTask"
  const NETWORK_TASK: string := "NetworkTask"
  const LOGGER_TASK: string := "LoggerTask"

  /** The two messages the runtime sends; each has its fixed type name and payload text. */
  datatype Content = ControlStatus | NetworkPacket

  datatype Message = Message(source: string, target: string, content: Content, sequenceId: nat)

  datatype Queue = Queue(limit: int, messages: seq<Message>)

  type Queues = map<string, Queue>

  datatype BusError = EmptyTaskName | QueueLimitNotPositive(task: string)

  function Depth(queues: Queues, task: string): nat {
    if task in queues then |queues[task].messages| else 0
  }

  function Limit(queues: Queues, task: string): int {
    if task in queues then queues[task].limit else 0
  }

  predicate HasRoom(queues: Queues, task: string) {
    task in queues && |queues[task].messages| < queues[task].limit
  }

  function Sent(queues: Queues, message: Message): Queues
  {
    if HasRoom(queues, message.target) then
      var queue := queues[message.target];
      queues[message.target := queue.(messages := queue.messages + [message])]
    else
      queues
  }

  predicate HasMail(queues: Queues, task: string) {
    task in queues && queues[task].messages != []
  }

  function Received(queues: Queues, task: string): Queues
  {
    if HasMail(queues, task) then
      queues[task := queues[task].(messages := queues[task].messages[1..])]
    else
      queues
  }

  function Head(queues: Queues, task: string): Option<Message> {
    if HasMail(queues, task) then Some(queues[task].messages[0]) else None
  }

  predicate WithinLimits(queues: Queues) {
    forall task <- queues :: |queues[task].messages| <= queues[task].limit
  }

  class Bus {
    var queues: Queues

    constructor ()
      ensures queues == map[]
    {
      queues := map[];
    }

    /** Registering a name again replaces its queue by an empty one. */
    method RegisterTaskQueue(task: string, limit: int) returns (result: Result<(), BusError>)
      modifies this
      ensures result.Err? <==> task == "" || limit <= 0
      ensures result.Err? ==> queues == old(queues)
      ensures result.Ok? ==> queues == old(queues)[task := Queue(limit, [])]
    {
      if task == "" {
        return Err(EmptyTaskName);
      }
      if limit <= 0 {
        return Err(QueueLimitNotPositive(task));
      }
      queues := queues[task := Queue(limit, [])];
      return Ok(());
    }

    method Send(message: Message) returns (accepted: bool)
      modifies this
      ensures accepted <==> old(message.target in queues && |queues[message.target].messages| < queues[message.target].limit)
      ensures queues ==
        if accepted then
          var queue := old(queues)[message.target];
          old(queues)[message.target := Queue(queue.limit, queue.messages + [message])]
        else old(queues)
      ensures accepted == old(HasRoom(queues, message.target)) && queues == Sent(old(queues), message)
      ensures old(WithinLimits(queues)) ==> WithinLimits(queues)
    {
      if message.target !in queues {
        return false;
      }
      var queue := queues[message.target];
      if |queue.messages| >= queue.limit {
        return false;
      }
      queues := queues[message.target := queue.(messages := queue.messages + [message])];
      return true;
    }

    method Receive(task: string) returns (message: Option<Message>)
      modifies this
      ensures message.Some? <==> old(task in queues && queues[task].messages != [])
      ensures message.Some? ==>
        var queue := old(queues)[task];
        message.value == queue.messages[0] && queues == old(queues)[task := Queue(queue.limit, queue.messages[1..])]
      ensures message.None? ==> queues == old(queues)
      ensures message == old(Head(queues, task)) && queues == Received(old(queues), task)
      ensures old(WithinLimits(queues)) ==> WithinLimits(queues)
    {
      if task !in queues {
        return None;
      }
      var queue := queues[task];
      if queue.messages == [] {
        return None;
      }
      queues := queues[task := queue.(messages := queue.messages[1..])];
      return Some(queue.messages[0]);
    }
  }
}
