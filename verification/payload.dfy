/** One host's report as the server keeps it, and the response served to visitors. */
module Payload {

  datatype HostStat = HostStat(
    name: string,
    alias: string,
    gid: string,
    notify: bool,
    online4: bool,
    online6: bool,
    disabled: bool,
    weight: nat,
    pos: nat,
    latestTs: nat,
    cpu: real,
    load1: real,
    load5: real,
    load15: real,
    memoryUsed: nat,
    memoryTotal: nat,
    hddUsed: nat,
    hddTotal: nat)
  {
    predicate Online() {
      online4 || online6
    }
  }
}
