// toy-server/main.go. The records are a plain Go map, and handlers of different
// requests run at the same time: a handler looks a record up in one step and
// deletes it in another.
module ToyServer {
  import opened Json

  // A handler's result or its error, or the server's protocol error for a tool nobody registered.
  datatype Reply = ToolOk(text: string) | ToolError | NoSuchTool

  type Records = map<string, string>

  const READ_RECORD := "read_record"
  const DELETE_RECORD := "delete_record"

  // A handler after its lookup: it has its answer, or it is about to delete a record it found.
  datatype Handler = Answers(reply: Reply) | Deletes(id: string)

  // The first step of a tools/call: a handler's lookup, if there is a handler for the tool.
  function LookUp(records: Records, tool: string, args: Object): Handler {
    var id := IdArg(args);
    if tool != READ_RECORD && tool != DELETE_RECORD then Answers(NoSuchTool)
    else if id.None? || id.value !in records then Answers(ToolError)
    else if tool == READ_RECORD then Answers(ToolOk(records[id.value]))
    else Deletes(id.value)
  }

  // A deleting handler never reports success at the lookup.
  lemma DeletionTakesTwoSteps(records: Records, args: Object)
    ensures LookUp(records, DELETE_RECORD, args) ==
              if IdArg(args).Some? && IdArg(args).value in records then Deletes(IdArg(args).value) else Answers(ToolError)
  {
    assert |DELETE_RECORD| != |READ_RECORD|;
  }

  // What the second step of a deletion answers, whether or not the record is still there.
  function Confirmation(id: string): Reply {
    ToolOk("record " + id + " deleted")
  }

  class Server {
    var records: Records

    constructor (seed: Records)
      ensures records == seed
    {
      records := seed;
    }

    method ReadRecord(args: Object) returns (reply: Reply)
      ensures LookUp(records, READ_RECORD, args) == Answers(reply)
      ensures reply.ToolOk? <==> IdArg(args).Some? && IdArg(args).value in records
      ensures reply.ToolOk? ==> reply.text == records[IdArg(args).value]
    {
      var id := IdArg(args);
      if id.None? || id.value !in records {
        return ToolError;
      }
      reply := ToolOk(records[id.value]);
    }

    // Up to the deletion of a record that was found.
    method FindForDeletion(args: Object) returns (h: Handler)
      ensures h == LookUp(records, DELETE_RECORD, args)
      ensures h.Deletes? <==> IdArg(args).Some? && IdArg(args).value in records
    {
      assert |DELETE_RECORD| != |READ_RECORD|;
      var id := IdArg(args);
      if id.None? || id.value !in records {
        return Answers(ToolError);
      }
      h := Deletes(id.value);
    }

    method Delete(id: string) returns (reply: Reply)
      modifies this
      ensures records == old(records) - {id} && reply == Confirmation(id) && reply == ToolOk("record " + id + " deleted")
    {
      records := records - {id};
      reply := Confirmation(id);
    }

    // Other handlers, which only ever delete.
    method Yield()
      modifies this
      ensures forall id :: id in records ==> id in old(records) && records[id] == old(records)[id]
    {
    }

    // The whole handler: success says that the record was there at the lookup and is gone now,
    // and says nothing of who deleted it.
    method DeleteRecord(args: Object) returns (reply: Reply)
      modifies this
      ensures reply.ToolOk? <==> IdArg(args).Some? && IdArg(args).value in old(records)
      ensures
        reply.ToolOk? ==>
          "id" in args && args["id"].JString? && args["id"].text !in records
          && reply == ToolOk("record " + args["id"].text + " deleted")
      ensures forall id :: id in records ==> id in old(records) && records[id] == old(records)[id]
    {
      var h := FindForDeletion(args);
      match h
      case Answers(answer) => reply := answer;
      case Deletes(id) =>
        Yield();
        reply := Delete(id);
    }

    // The MCP server's dispatch by tool name, up to the deletion: two tools, and the record is named
    // by a string under `id`.
    method Handle(tool: string, args: Object) returns (h: Handler)
      ensures h == LookUp(records, tool, args)
      ensures
        var there := "id" in args && args["id"].JString? && args["id"].text in records;
        && (h == Answers(NoSuchTool) <==> tool != "read_record" && tool != "delete_record")
        && (h == Answers(ToolError) <==> (tool == "read_record" || tool == "delete_record") && !there)
        && (tool == "read_record" && there ==> h == Answers(ToolOk(records[args["id"].text])))
        && (tool == "delete_record" && there ==> h == Deletes(args["id"].text))
    {
      assert |"delete_record"| != |"read_record"|;
      if tool == READ_RECORD {
        var reply := ReadRecord(args);
        h := Answers(reply);
      } else if tool == DELETE_RECORD {
        h := FindForDeletion(args);
      } else {
        h := Answers(NoSuchTool);
      }
    }
  }
}
