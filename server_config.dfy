/**
 * `ServerConfig`: the five settings the server starts with, with a getter and
 * a setter for each. The setters store whatever they are given.
 */
module ServerConfigs {
  import opened GameConstants

  /** An `unsigned short`. */
  type Port = x: int | 0 <= x < 0x1_0000

  /** Every field of a configuration. */
  datatype ConfigView = ConfigView(port: Port, maxClients: int, updateRate: real, verbose: bool, logFile: string)

  /** What the default constructor stores. */
  const Defaults: ConfigView := ConfigView(DEFAULT_PORT, MAX_CLIENTS, SERVER_UPDATE_RATE, true, "server_log.txt")

  /** The getters of the source are the fields themselves. */
  class ServerConfig {
    var port: Port
    var maxClients: int
    var updateRate: real
    var verbose: bool
    var logFile: string

    function View(): ConfigView
      reads this
    {
      ConfigView(port, maxClients, updateRate, verbose, logFile)
    }

    constructor ()
      ensures View() == Defaults
    {
      port := DEFAULT_PORT;
      maxClients := MAX_CLIENTS;
      updateRate := SERVER_UPDATE_RATE;
      verbose := true;
      logFile := "server_log.txt";
    }

    method SetPort(value: Port)
      modifies this
      ensures View() == old(View()).(port := value)
    {
      port := value;
    }

    method SetMaxClients(value: int)
      modifies this
      ensures View() == old(View()).(maxClients := value)
    {
      maxClients := value;
    }

    method SetUpdateRate(value: real)
      modifies this
      ensures View() == old(View()).(updateRate := value)
    {
      updateRate := value;
    }

    method SetVerbose(value: bool)
      modifies this
      ensures View() == old(View()).(verbose := value)
    {
      verbose := value;
    }

    method SetLogFile(value: string)
      modifies this
      ensures View() == old(View()).(logFile := value)
    {
      logFile := value;
    }
  }
}
