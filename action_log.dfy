/**
  The append-only action log (`firewall_engine/logs/actions.log`, written by
  `response_automation.log_action`): one `{timestamp, action, data}` record per line. The
  file is modelled as a sequence of entries that only ever grows at its end; the timestamp is
  a clock reading the caller supplies.
*/
module ActionLog {
  import opened Common
  import opened FirewallRules

  /** The `data` dictionary of an incident: the keys the responder reads. */
  datatype IncidentData = IncidentData(ip: Option<string>, srcIp: Option<string>)

  /** An incident as the responder receives it; missing `data` is an empty dictionary. */
  datatype Incident = Incident(severity: Option<string>, data: IncidentData)

  /** The `details` of an alert: the packet or the incident it is about. */
  datatype AlertDetails = PacketDetails(packet: Packet) | IncidentDetails(incident: Incident)

  /** The `data` payload of each kind of entry. */
  datatype LogData =
    | BlockedIp(ip: Option<string>)                          // {"ip": ip}
    | IsolatedHost(host: Option<string>)                     // {"host": host_ip}
    | AlertMessage(message: string, details: AlertDetails)   // {"message": ..., "details": ...}
    | AllowedPacket(packet: Packet)                          // the packet itself

  datatype LogEntry = LogEntry(timestamp: Timestamp, action: string, data: LogData)

  class Log {
    var entries: seq<LogEntry>

    /** A log file that already holds `existing`. */
    constructor(existing: seq<LogEntry>)
      ensures entries == existing
    {
      entries := existing;
    }

    /** `log_action`: appends exactly one record and leaves the earlier ones untouched. */
    method LogAction(action: string, data: LogData, now: Timestamp)
      modifies this
      ensures entries == old(entries) + [LogEntry(now, action, data)]
    {
      entries := entries + [LogEntry(now, action, data)];
    }
  }
}
