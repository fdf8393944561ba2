/**
 * A task the assistant is working on (tasks/task.py): its goal, its plan
 * and the log of messages exchanged while carrying it out.
 */
module Tasks {
  import opened Messages
  import Json

  class Task {
    var goal: string
    var plan: string
    var messageLog: seq<Message>
    /** Set by the `mark_task_completed` tool. The constructor never sets it;
        the model takes it as false until that tool runs. */
    var completed: bool

    /** `Task(goal)` */
    constructor (goal: string)
      ensures this.goal == goal && plan == "" && messageLog == [] && !completed
    {
      this.goal := goal;
      plan := "";
      messageLog := [];
      completed := false;
    }

    /** `add_plan`: replaces whatever plan there was. */
    method AddPlan(plan: string)
      modifies this
      ensures this.plan == plan
      ensures goal == old(goal) && messageLog == old(messageLog) && completed == old(completed)
    {
      this.plan := plan;
    }

    /** `log_message`: one entry with that role and content, at the end. */
    method LogMessage(role: string, content: string)
      modifies this
      ensures messageLog == old(messageLog) + [NewMessage(role, content)]
      ensures goal == old(goal) && plan == old(plan) && completed == old(completed)
    {
      messageLog := messageLog + [NewMessage(role, content)];
    }
  }

  /** `Task.create_task` */
  method CreateTask(goal: string) returns (t: Task)
    ensures fresh(t) && t.goal == goal && t.plan == "" && t.messageLog == [] && !t.completed
  {
    t := new Task(goal);
  }

  /** `Task.create_task_tool_schema` */
  function CreateTaskToolSchema(): (v: Json.Value)
    ensures v.Obj? && v.fields.Keys == {"name", "description", "parameters"}
    ensures v.fields["name"] == Json.Str("create_task")
    ensures var ps := v.fields["parameters"];
            && ps.Obj? && ps.fields.Keys == {"type", "properties", "required"}
            && ps.fields["required"] == Json.Arr([Json.Str("goal")])
            && ps.fields["properties"].Obj? && ps.fields["properties"].fields.Keys == {"goal"}
            && ps.fields["properties"].fields["goal"].Obj? && "type" in ps.fields["properties"].fields["goal"].fields
            && ps.fields["properties"].fields["goal"].fields["type"] == Json.Str("string")
  {
    Json.Obj(map[
      "name" := Json.Str("create_task"),
      "description" := Json.Str("Creates a new task with a specified goal."),
      "parameters" := Json.Obj(map[
        "type" := Json.Str("object"),
        "properties" := Json.Obj(map[
          "goal" := Json.Obj(map[
            "type" := Json.Str("string"),
            "description" := Json.Str("The goal of the new task.")])]),
        "required" := Json.Arr([Json.Str("goal")])])])
  }
}
