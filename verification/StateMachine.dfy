/** The state machine of a backup job: which state may follow which, and who enforces it. */
module StateMachine {
  import opened Wrappers
  import opened Manifest

  function AllowedTargets(source: BackupState): set<BackupState> {
    match source
    case IDLE => {SOURCE_DETECTED, MULTIPLE_SOURCES_DETECTED}
    case SOURCE_DETECTED => {SOURCE_MOUNTING, SOURCE_PROTECTION_FAILURE, BACKUP_FAILED}
    case MULTIPLE_SOURCES_DETECTED => {SOURCE_DETECTED, IDLE}
    case SOURCE_MOUNTING => {SOURCE_READY, SOURCE_PROTECTION_FAILURE, BACKUP_FAILED}
    case SOURCE_PROTECTION_FAILURE => {SOURCE_DETECTED, IDLE}
    case SOURCE_READY => {PREFLIGHT_SCANNING}
    case PREFLIGHT_SCANNING => {PREFLIGHT_HASHING, PREFLIGHT_BLOCKED, BACKUP_FAILED}
    case PREFLIGHT_HASHING => {PREFLIGHT_COMPARING, PREFLIGHT_BLOCKED, BACKUP_FAILED}
    case PREFLIGHT_COMPARING => {PREFLIGHT_CAPACITY_CHECK}
    case PREFLIGHT_CAPACITY_CHECK => {PREFLIGHT_READY, PREFLIGHT_WARNING, PREFLIGHT_BLOCKED}
    case PREFLIGHT_READY => {BACKUP_QUEUED}
    case PREFLIGHT_WARNING => {BACKUP_QUEUED, PREFLIGHT_BLOCKED}
    case PREFLIGHT_BLOCKED => {PREFLIGHT_SCANNING, IDLE}
    case BACKUP_QUEUED => {BACKUP_COPYING, BACKUP_CANCELLED}
    case BACKUP_COPYING => {BACKUP_VERIFYING, BACKUP_CANCELLING, RECOVERY_REQUIRED, BACKUP_FAILED}
    case BACKUP_VERIFYING =>
      {BACKUP_COPYING, BACKUP_COMPLETED, BACKUP_COMPLETED_WITH_WARNINGS, BACKUP_CANCELLING, RECOVERY_REQUIRED, BACKUP_FAILED}
    case BACKUP_CANCELLING => {BACKUP_CANCELLED, RECOVERY_REQUIRED}
    case BACKUP_COMPLETED => {SOURCE_SAFE_TO_REMOVE}
    case BACKUP_COMPLETED_WITH_WARNINGS => {SOURCE_SAFE_TO_REMOVE}
    case BACKUP_CANCELLED => {SOURCE_SAFE_TO_REMOVE, PREFLIGHT_SCANNING}
    case RECOVERY_REQUIRED => {RECOVERING}
    case RECOVERING => {PREFLIGHT_SCANNING, BACKUP_COPYING, BACKUP_VERIFYING, BACKUP_COMPLETED, BACKUP_FAILED}
    case SOURCE_SAFE_TO_REMOVE => {IDLE}
    case BACKUP_FAILED => {PREFLIGHT_SCANNING, RECOVERY_REQUIRED, SOURCE_SAFE_TO_REMOVE}
  }

  predicate CanTransition(source: BackupState, target: BackupState) {
    target in AllowedTargets(source)
  }

  /** The same map, read backwards: what may come before a state. */
  function Sources(target: BackupState): set<BackupState> {
    match target
    case IDLE => {MULTIPLE_SOURCES_DETECTED, SOURCE_PROTECTION_FAILURE, PREFLIGHT_BLOCKED, SOURCE_SAFE_TO_REMOVE}
    case SOURCE_DETECTED => {IDLE, MULTIPLE_SOURCES_DETECTED, SOURCE_PROTECTION_FAILURE}
    case MULTIPLE_SOURCES_DETECTED => {IDLE}
    case SOURCE_MOUNTING => {SOURCE_DETECTED}
    case SOURCE_PROTECTION_FAILURE => {SOURCE_DETECTED, SOURCE_MOUNTING}
    case SOURCE_READY => {SOURCE_MOUNTING}
    case PREFLIGHT_SCANNING => {SOURCE_READY, PREFLIGHT_BLOCKED, BACKUP_CANCELLED, RECOVERING, BACKUP_FAILED}
    case PREFLIGHT_HASHING => {PREFLIGHT_SCANNING}
    case PREFLIGHT_COMPARING => {PREFLIGHT_HASHING}
    case PREFLIGHT_CAPACITY_CHECK => {PREFLIGHT_COMPARING}
    case PREFLIGHT_READY => {PREFLIGHT_CAPACITY_CHECK}
    case PREFLIGHT_WARNING => {PREFLIGHT_CAPACITY_CHECK}
    case PREFLIGHT_BLOCKED => {PREFLIGHT_SCANNING, PREFLIGHT_HASHING, PREFLIGHT_CAPACITY_CHECK, PREFLIGHT_WARNING}
    case BACKUP_QUEUED => {PREFLIGHT_READY, PREFLIGHT_WARNING}
    case BACKUP_COPYING => {BACKUP_QUEUED, BACKUP_VERIFYING, RECOVERING}
    case BACKUP_VERIFYING => {BACKUP_COPYING, RECOVERING}
    case BACKUP_CANCELLING => {BACKUP_COPYING, BACKUP_VERIFYING}
    case BACKUP_COMPLETED => {BACKUP_VERIFYING, RECOVERING}
    case BACKUP_COMPLETED_WITH_WARNINGS => {BACKUP_VERIFYING}
    case BACKUP_CANCELLED => {BACKUP_QUEUED, BACKUP_CANCELLING}
    case BACKUP_FAILED =>
      {SOURCE_DETECTED, SOURCE_MOUNTING, PREFLIGHT_SCANNING, PREFLIGHT_HASHING, BACKUP_COPYING, BACKUP_VERIFYING, RECOVERING}
    case SOURCE_SAFE_TO_REMOVE => {BACKUP_COMPLETED, BACKUP_COMPLETED_WITH_WARNINGS, BACKUP_CANCELLED, BACKUP_FAILED}
    case RECOVERY_REQUIRED => {BACKUP_COPYING, BACKUP_VERIFYING, BACKUP_CANCELLING, BACKUP_FAILED}
    case RECOVERING => {RECOVERY_REQUIRED}
  }

  lemma MapReadsBackwards(source: BackupState, target: BackupState)
    ensures CanTransition(source, target) <==> source in Sources(target)
  {
    if Later(source) {
      LaterReadsBackwards(source, target);
    } else {
      EarlyReadsBackwards(source, target);
    }
  }

  /** The states of a job and of what becomes of it. */
  predicate Later(s: BackupState) {
    s in {BACKUP_QUEUED, BACKUP_COPYING, BACKUP_CANCELLING, BACKUP_VERIFYING, BACKUP_COMPLETED, BACKUP_COMPLETED_WITH_WARNINGS,
          BACKUP_CANCELLED, BACKUP_FAILED, SOURCE_SAFE_TO_REMOVE, RECOVERY_REQUIRED, RECOVERING}
  }

  lemma LaterReadsBackwards(source: BackupState, target: BackupState)
    requires Later(source)
    ensures CanTransition(source, target) <==> source in Sources(target)
  {
    if Later(target) {
      WithinLater(source, target);
    }
  }

  lemma EarlyReadsBackwards(source: BackupState, target: BackupState)
    requires !Later(source)
    ensures CanTransition(source, target) <==> source in Sources(target)
  {
    if !Later(target) {
      WithinEarly(source, target);
    }
  }

  lemma WithinLater(source: BackupState, target: BackupState)
    requires Later(source) && Later(target)
    ensures CanTransition(source, target) <==> source in Sources(target)
  {
  }

  lemma WithinEarly(source: BackupState, target: BackupState)
    requires !Later(source) && !Later(target)
    ensures CanTransition(source, target) <==> source in Sources(target)
  {
  }

  /** A sequence of states each of which may follow the one before. */
  ghost predicate Legal(path: seq<BackupState>) {
    forall i, k | 0 <= i < k < |path| && k == i + 1 :: CanTransition(path[i], path[k])
  }

  lemma LegalNext(path: seq<BackupState>, target: BackupState)
    requires path != [] && Legal(path) && CanTransition(path[|path| - 1], target)
    ensures Legal(path + [target])
  {
  }

  datatype InvalidTransition = InvalidTransition(source: BackupState, target: BackupState)

  class JobStateMachine {
    var state: BackupState
    /** Every state so far, as the transition hook has seen them. */
    ghost var visited: seq<BackupState>

    ghost predicate Valid()
      reads this
    {
      visited != [] && visited[|visited| - 1] == state && Legal(visited)
    }

    constructor (initial: BackupState)
      ensures Valid() && state == initial && visited == [initial]
    {
      state := initial;
      visited := [initial];
    }

    /** A rejected transition changes nothing, and its hook never fires. */
    method Transition(target: BackupState) returns (r: Result<BackupState, InvalidTransition>)
      requires Valid()
      modifies this
      ensures Valid()
      ensures r == if CanTransition(old(state), target) then Success(target) else Failure(InvalidTransition(old(state), target))
      ensures visited == if r.Success? then old(visited) + [target] else old(visited)
    {
      if !CanTransition(state, target) {
        return Failure(InvalidTransition(state, target));
      }
      LegalNext(visited, target);
      visited := visited + [target];
      state := target;
      return Success(target);
    }
  }

  /** The map by itself does not make a preflight precede a copy; only the engine does. */
  lemma MapAllowsCopyWithoutPreflight()
    ensures exists path: seq<BackupState> ::
              && |path| > 0 && path[0] == IDLE && path[|path| - 1] == BACKUP_COPYING && Legal(path)
              && PREFLIGHT_READY !in path && PREFLIGHT_WARNING !in path
  {
    var path := [IDLE, SOURCE_DETECTED, BACKUP_FAILED, RECOVERY_REQUIRED, RECOVERING, BACKUP_COPYING];
    assert Legal(path);
    assert path[0] == IDLE && path[|path| - 1] == BACKUP_COPYING;
  }
}
