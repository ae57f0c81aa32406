/**
 * `MfaDisableServiceImpl` (academy_core/mfa/impl/src/disable.rs): turning multi-factor
 * authentication off removes a user's TOTP devices and then the hash of their recovery code.
 * It runs in its caller's transaction and commits nothing. Whether a repository call fails
 * (an I/O error) is a parameter.
 */
module MfaDisable {
  import opened Wrappers
  import opened Models

  type DeviceId = nat

  /** A TOTP device row: its owner and whether it was enabled. */
  datatype TotpDevice = TotpDevice(userId: UserId, enabled: bool)

  /** The `anyhow` error of a failed repository call. */
  datatype RepoFailure = RepoFailure

  /** The devices of a table that belong to someone other than `userId`. */
  function DevicesWithout(devices: map<DeviceId, TotpDevice>, userId: UserId): (rest: map<DeviceId, TotpDevice>)
    ensures forall id :: id in rest <==> id in devices && devices[id].userId != userId
    ensures forall id :: id in rest ==> rest[id] == devices[id]
  {
    map id | id in devices && devices[id].userId != userId :: devices[id]
  }

  /** Removing a user's devices twice is removing them once. */
  lemma DevicesWithoutIdempotent(devices: map<DeviceId, TotpDevice>, userId: UserId)
    ensures DevicesWithout(DevicesWithout(devices, userId), userId) == DevicesWithout(devices, userId)
  {
  }

  /** The MFA tables: TOTP devices and, per user, the hash of the recovery code. */
  class MfaRepo {
    var totpDevices: map<DeviceId, TotpDevice>
    var recoveryCodeHashes: map<UserId, string>

    constructor (totpDevices: map<DeviceId, TotpDevice>, recoveryCodeHashes: map<UserId, string>)
      ensures this.totpDevices == totpDevices && this.recoveryCodeHashes == recoveryCodeHashes
    {
      this.totpDevices := totpDevices;
      this.recoveryCodeHashes := recoveryCodeHashes;
    }

    /** `delete_totp_devices_by_user`: every device of `userId` and nothing else. */
    method DeleteTotpDevicesByUser(userId: UserId, ioFailure: bool) returns (r: Result<(), RepoFailure>)
      modifies this
      ensures recoveryCodeHashes == old(recoveryCodeHashes)
      ensures ioFailure ==> r.Err? && totpDevices == old(totpDevices)
      ensures !ioFailure ==> r.Ok? && totpDevices == DevicesWithout(old(totpDevices), userId)
    {
      if ioFailure {
        return Err(RepoFailure);
      }
      totpDevices := DevicesWithout(totpDevices, userId);
      r := Ok(());
    }

    /** `delete_mfa_recovery_code_hash`: the hash of `userId`, if any, and nothing else. */
    method DeleteMfaRecoveryCodeHash(userId: UserId, ioFailure: bool) returns (r: Result<(), RepoFailure>)
      modifies this
      ensures totpDevices == old(totpDevices)
      ensures ioFailure ==> r.Err? && recoveryCodeHashes == old(recoveryCodeHashes)
      ensures !ioFailure ==> r.Ok? && recoveryCodeHashes == old(recoveryCodeHashes) - {userId}
    {
      if ioFailure {
        return Err(RepoFailure);
      }
      recoveryCodeHashes := recoveryCodeHashes - {userId};
      r := Ok(());
    }
  }

  class MfaDisableSvc {
    const mfaRepo: MfaRepo

    constructor (mfaRepo: MfaRepo)
      ensures this.mfaRepo == mfaRepo
    {
      this.mfaRepo := mfaRepo;
    }

    /**
     * `disable`: afterwards `userId` has no TOTP device and no recovery-code hash, and every
     * other user's records are as they were. The devices go first: when deleting them fails,
     * the hash is not touched; when deleting the hash fails, the devices are already gone.
     */
    method Disable(userId: UserId, devicesFail: bool, hashFail: bool) returns (r: Result<(), RepoFailure>)
      modifies mfaRepo
      ensures r.Ok? <==> !devicesFail && !hashFail
      ensures r.Ok? ==>
        && (forall id :: id in mfaRepo.totpDevices ==> mfaRepo.totpDevices[id].userId != userId)
        && userId !in mfaRepo.recoveryCodeHashes
      ensures devicesFail ==> mfaRepo.totpDevices == old(mfaRepo.totpDevices) && mfaRepo.recoveryCodeHashes == old(mfaRepo.recoveryCodeHashes)
      ensures !devicesFail ==> mfaRepo.totpDevices == DevicesWithout(old(mfaRepo.totpDevices), userId)
      ensures !devicesFail && !hashFail ==> mfaRepo.recoveryCodeHashes == old(mfaRepo.recoveryCodeHashes) - {userId}
      ensures hashFail ==> mfaRepo.recoveryCodeHashes == old(mfaRepo.recoveryCodeHashes)
    {
      var deleted := mfaRepo.DeleteTotpDevicesByUser(userId, devicesFail);
      if deleted.Err? {
        return Err(deleted.error);
      }
      var cleared := mfaRepo.DeleteMfaRecoveryCodeHash(userId, hashFail);
      if cleared.Err? {
        return Err(cleared.error);
      }
      r := Ok(());
    }
  }
}
