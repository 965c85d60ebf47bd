// Dashboard endpoint listing tasks (server/api/tasks.get.ts):
// the auth gate, a wait, then a fixed list of three tasks.
module TasksHandler {
  import opened Api
  import opened ServerKit

  const TasksDelayMs := 500

  datatype Task = Task(id: nat, title: string, status: string, priority: string)

  const FixedTasks: seq<Task> := [
    Task(1, "Review PR", "pending", "high"),
    Task(2, "Update docs", "in_progress", "medium"),
    Task(3, "Fix bug #123", "completed", "high")
  ]

  function TasksReply(user: Option<UserRecord>): (r: Handled<Envelope<seq<Task>>>)
    // the gate runs first: no user means no wait and a 401 envelope
    ensures user.None? ==> r.effects == [] && r.reply == Envelope(401, "Unauthorized", None)
    ensures user.Some? ==> r.effects == [Sleep(TasksDelayMs)] && r.reply.code == 0 && r.reply.message == "success"
    // the data is three tasks with ids 1, 2, 3 in that order, whoever asks
    ensures user.Some? ==>
              && r.reply.data.Some? && |r.reply.data.value| == 3
              && forall i :: 0 <= i < 3 ==> r.reply.data.value[i].id == i + 1
  {
    if user.None? then Handled([], Envelope(401, "Unauthorized", None))
    else Handled([Sleep(TasksDelayMs)], Envelope(0, "success", Some(FixedTasks)))
  }
}
