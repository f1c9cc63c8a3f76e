/** The device connection the adapters drive. Only its boundary is modelled:
    `send` takes a request and either returns the device's reply or raises,
    and `get_prompt` returns the current prompt. Which commands the device
    rejects and what it replies are fixed when the connection is made; every
    request handed to `send` is recorded in the ghost log `sent`. */
module Transport {
  import opened Outcomes
  import Py = PyValues

  /** The keyword arguments `send_command` hands to `connection.send`;
      `prompt` and `answer` are there only when the caller gave them. */
  datatype Request = Request(
    command: string,
    sendonly: Py.Value,
    newline: Py.Value,
    promptRetryCheck: Py.Value,
    prompt: Option<string>,
    answer: Option<string>)

  /** How the device on the other end behaves: the commands it rejects
      (`send` raises) and the reply it gives to every other command */
  datatype Device = Device(rejected: set<string>, reply: string -> string) {
    function Answer(command: string): (r: Result<string>)
      ensures r.Ok? <==> command !in rejected
      ensures r.Ok? ==> r.value == reply(command)
      ensures r.Err? ==> r.error == DeviceError(command)
    {
      if command in rejected then Err(DeviceError(command)) else Ok(reply(command))
    }
  }

  /** A command and the device's reply to it */
  type Entry = (string, string)

  /** What `send_command(command)` hands over when every other argument has
      its default value */
  function Plain(command: string): Request {
    Request(command, Py.Bool(false), Py.Bool(true), Py.Bool(false), None, None)
  }

  /** `Plain` of each command, in order */
  function PlainAll(commands: seq<string>): (requests: seq<Request>)
    ensures |requests| == |commands|
  {
    if commands == [] then [] else [Plain(commands[0])] + PlainAll(commands[1..])
  }

  lemma {:induction false} PlainAllConcat(a: seq<string>, b: seq<string>)
    ensures PlainAll(a + b) == PlainAll(a) + PlainAll(b)
  {
    if a != [] {
      assert (a + b)[1..] == a[1..] + b;
      PlainAllConcat(a[1..], b);
    } else {
      assert a + b == b;
    }
  }

  /** The exchanges the device completes when `cmds` are sent one after
      another: each accepted command with its reply, in order; a rejected
      command leaves no exchange. */
  function Answered(cmds: seq<string>, device: Device): (entries: seq<Entry>)
    ensures |entries| <= |cmds|
  {
    if cmds == [] then []
    else
      (if cmds[0] in device.rejected then [] else [(cmds[0], device.reply(cmds[0]))])
      + Answered(cmds[1..], device)
  }

  lemma {:induction false} AnsweredConcat(a: seq<string>, b: seq<string>, device: Device)
    ensures Answered(a + b, device) == Answered(a, device) + Answered(b, device)
  {
    if a != [] {
      assert (a + b)[1..] == a[1..] + b;
      AnsweredConcat(a[1..], b, device);
    } else {
      assert a + b == b;
    }
  }

  /** When the device accepts every command, each command is answered, in
      order, with the device's reply to it; when it rejects every command,
      nothing is answered. */
  lemma {:induction false} AnsweredAccepted(cmds: seq<string>, device: Device)
    ensures (forall k :: 0 <= k < |cmds| ==> cmds[k] !in device.rejected) ==>
              |Answered(cmds, device)| == |cmds| &&
              forall k :: 0 <= k < |cmds| ==> Answered(cmds, device)[k] == (cmds[k], device.reply(cmds[k]))
    ensures (forall k :: 0 <= k < |cmds| ==> cmds[k] in device.rejected) ==> Answered(cmds, device) == []
  {
    if cmds != [] {
      AnsweredAccepted(cmds[1..], device);
      assert forall k :: 1 <= k < |cmds| ==> cmds[1..][k - 1] == cmds[k];
    }
  }

  /** Commands sent in two batches: the requests and the exchanges are
      those of the two command lists joined. */
  lemma SentInTwo(before: seq<Request>, earlier: seq<Entry>, a: seq<string>, b: seq<string>, device: Device)
    ensures before + PlainAll(a) + PlainAll(b) == before + PlainAll(a + b)
    ensures earlier + Answered(a, device) + Answered(b, device) == earlier + Answered(a + b, device)
  {
    PlainAllConcat(a, b);
    AnsweredConcat(a, b, device);
  }

  class Connection {
    /** every request handed to `send`, in order */
    ghost var sent: seq<Request>
    /** every exchange the device completed: the command and its reply, in order */
    ghost var answered: seq<Entry>
    const device: Device
    const prompt: string
    /** `connection.device_type`, as netmiko names the platform */
    const deviceType: string

    constructor (device: Device, prompt: string, deviceType: string)
      ensures sent == [] && answered == []
      ensures this.device == device && this.prompt == prompt && this.deviceType == deviceType
    {
      this.device := device;
      this.prompt := prompt;
      this.deviceType := deviceType;
      sent := [];
      answered := [];
    }

    method Send(request: Request) returns (r: Result<string>)
      modifies this
      ensures sent == old(sent) + [request]
      ensures r == device.Answer(request.command)
      ensures answered == old(answered) + (if r.Ok? then [(request.command, r.value)] else [])
    {
      sent := sent + [request];
      r := device.Answer(request.command);
      if r.Ok? {
        answered := answered + [(request.command, r.value)];
      }
    }

    method GetPrompt() returns (p: string)
      ensures p == prompt
    {
      p := prompt;
    }
  }
}
