/** Optional values, the errors the adapters raise, and results that carry
    either a value or one of those errors. */
module Outcomes {
  import Py = PyValues

  datatype Option<+T> = None | Some(value: T)

  /** The exceptions raised along the modelled paths. */
  datatype Error =
    | ValueError(message: string)
      /** a ValueError whose message ends with the offending argument */
    | BadValue(message: string, argument: Py.Value)
      /** AnsibleError('operation requires privilege escalation') */
    | PrivilegeRequired
    | AnsibleError(message: string)
      /** the transport raised while sending this command */
    | DeviceError(command: string)
      /** `line[0]` on an empty candidate line */
    | IndexError
    | KeyError(key: string)
      /** `json.loads` rejected a reply */
    | JsonDecodeError(text: string)
    | NameError(name: string)
    | AttributeError(name: string)
      /** the interpreter's recursion limit was reached */
    | RecursionError

  datatype Result<+T> = Ok(value: T) | Err(error: Error)
}
