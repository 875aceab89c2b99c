/**
 * The plugin manager's errors. The not-found error carries a marker
 * (`IsNotFound`) so that callers can tell "no such plugin" from every other
 * failure without matching on the message.
 */
module Errors {
  import opened Wrappers
  import opened FileSystem

  datatype PluginError =
    | NotFound(name: string)                      // `errPluginNotFound`
    | ConflictsWithBuiltin(name: string)          // the name is a built-in command
    | ExecFailure(path: Path)                     // the candidate could not be started
    | InvalidPlugin(path: Path)                   // non-zero exit or malformed metadata
    | ProbeTimeout(path: Path)                    // the candidate did not answer in time
    | UnsupportedSchema(path: Path, schemaVersion: string)

  const NotFoundPrefix: string := "Error: No such CLI plugin: "

  /** `Error()`: the message of an error. */
  function Message(e: PluginError): string
  {
    match e
    case NotFound(name) => NotFoundPrefix + name
    case ConflictsWithBuiltin(name) => "plugin \"" + name + "\" duplicates builtin command"
    case ExecFailure(path) => "failed to run plugin " + path
    case InvalidPlugin(path) => "invalid metadata from plugin " + path
    case ProbeTimeout(path) => "timed out querying plugin " + path
    case UnsupportedSchema(path, v) => "plugin SchemaVersion \"" + v + "\" is not valid"
  }

  /** `IsNotFound(err)`, where None is Go's nil error. */
  predicate IsNotFound(err: Option<PluginError>)
  {
    err.Some? && err.value.NotFound?
  }

  /** Reads the plugin name back out of a not-found message. */
  function ParseNotFound(msg: string): Option<string>
  {
    if |NotFoundPrefix| <= |msg| && msg[..|NotFoundPrefix|] == NotFoundPrefix
    then Some(msg[|NotFoundPrefix|..])
    else None
  }

  /** The not-found message names the plugin, and the name can be read back from it. */
  lemma NotFoundMessageRoundTrip(name: string)
    ensures Message(NotFound(name)) == "Error: No such CLI plugin: " + name
    ensures ParseNotFound(Message(NotFound(name))) == Some(name)
  {
    var msg := Message(NotFound(name));
    assert msg[..|NotFoundPrefix|] == NotFoundPrefix;
    assert msg[|NotFoundPrefix|..] == name;
  }

  /** The marker and the message agree: only a not-found error has a not-found message. */
  lemma MarkerAgreesWithMessage(e: PluginError)
    ensures IsNotFound(Some(e)) <==> ParseNotFound(Message(e)).Some?
    ensures ParseNotFound(Message(e)).Some? ==> e == NotFound(ParseNotFound(Message(e)).value)
  {
    var msg := Message(e);
    if e.NotFound? {
      NotFoundMessageRoundTrip(e.name);
    } else {
      if |NotFoundPrefix| <= |msg| {
        assert msg[..|NotFoundPrefix|][0] == msg[0] != NotFoundPrefix[0];
      }
    }
  }

  /** A nil error is not a not-found error; an `errPluginNotFound` is. */
  lemma IsNotFoundCases(name: string)
    ensures !IsNotFound(None)
    ensures IsNotFound(Some(NotFound(name)))
  {
  }
}
