/** disastrOS_constants.h: the limits, error codes and call numbers the kernel uses. */
module Constants {
  datatype Option<+T> = None | Some(value: T)

  const MAX_NUM_PROCESSES: nat := 1024
  const MAX_NUM_RESOURCES: nat := 1024
  const MQ_MAX_MSG_SIZE: nat := 10
  const MAX_SYSCALLS_ARGS: nat := 8
  const QUEUE_SLEEP := 30  // local SLEEP of internal_mqSend and internal_mqReceive

  const DSOS_ESYSCALL_NOT_IMPLEMENTED := -2
  const DSOS_EWAIT := -5
  const DSOS_ESLEEP := -7
  const DSOS_ERESOURCECREATE := -8
  const DSOS_ERESOURCEOPEN := -9
  const DSOS_ERESOURCENOEXCL := -10
  const DSOS_ERESOURCENOFD := -11
  const DSOS_ERESOURCECLOSE := -12
  const DSOS_ERESOURCEINUSE := -13
  const DSOS_ERESOURCESEND := -14
  const DSOS_ERESOURCERECV := -15
  const DSOS_MQ_EMPTY := -16
  const DSOS_MQ_FULL := -17

  const DSOS_MAX_SYSCALLS := 32
  const DSOS_CALL_PREEMPT := 1
  const DSOS_CALL_FORK := 2
  const DSOS_CALL_WAIT := 3
  const DSOS_CALL_EXIT := 4
  const DSOS_CALL_SPAWN := 5
  const DSOS_CALL_SLEEP := 6
  const DSOS_CALL_OPEN_RESOURCE := 7
  const DSOS_CALL_CLOSE_RESOURCE := 8
  const DSOS_CALL_DESTROY_RESOURCE := 9
  const DSOS_MQ_OPEN := 11
  const DSOS_MQ_CLOSE := 12
  const DSOS_MQ_UNLINK := 13
  const DSOS_MQ_SEND := 14
  const DSOS_MQ_RECV := 15

  const DSOS_CREATE := 1
  const DSOS_EXCL := 4
  const DSOS_MQ := 1
}
