/** Process identity as src/state/store.c sees it: a pid and the start time that /proc reports. */
module Processes {
  /** pid -> start time of the processes that /proc shows, zombies included. */
  type Table = map<int, int>

  /** process_start_time: 0 when /proc has no such process. */
  function StartTime(table: Table, pid: int): int {
    if pid in table then table[pid] else 0
  }

  /** The liveness test: a pid or start time of 0 names no process, and a reused pid has another
      start time. */
  predicate Alive(table: Table, pid: int, start: int) {
    pid > 0 && start > 0 && StartTime(table, pid) == start
  }
}
