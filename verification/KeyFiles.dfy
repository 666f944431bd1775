/** internal/app/rotation.go and ResolveEncryptor of internal/app/storage.go: the key and salt
    files, staged, final and backed up. */
module KeyFiles {
  import opened Wrappers
  import opened Aead
  import opened Faults

  /** A key file holds 32 bytes in base64, or something that is not that. */
  datatype KeyFile = Encoded(bytes: nat) | Corrupt

  /** The six files of the data directory. Each changes in one atomic step. */
  datatype Files = Files(
    key: Option<KeyFile>, salt: Option<string>,          // .encryption_key, .encryption_salt
    keyNew: Option<KeyFile>, saltNew: Option<string>,    // the same with .new
    keyBak: Option<KeyFile>, saltBak: Option<string>)    // the same with .bak

  datatype KeyError =
    | ConflictingStaging | BadStagedKey | PassphraseNeeded | EmptySalt
    | BadKeyFile | BadSaltFile | OldFileMissing | StagedFileMissing | Io

  const SALT_LENGTH: nat := 16

  /** The material of the key is in one of the files (a derived key also needs its passphrase,
      which the operator holds). */
  predicate OnDisk(f: Files, k: Key) {
    match k
    case AutoKey(b) => f.key == Some(Encoded(b)) || f.keyNew == Some(Encoded(b)) || f.keyBak == Some(Encoded(b))
    case Derived(_, s) => f.salt == Some(s) || f.saltNew == Some(s) || f.saltBak == Some(s)
  }

  // ----- Source names -----

  function TrimSuffix(s: string, suffix: string): string {
    if |suffix| <= |s| && s[|s|-|suffix|..] == suffix then s[..|s|-|suffix|] else s
  }

  /** runRotateKey strips both suffixes before it promotes. */
  function SourceBase(source: string): string {
    TrimSuffix(TrimSuffix(source, " (staged)"), " (dry-run)")
  }

  const AUTO := "auto-key"
  const PASS := "passphrase"

  predicate IsBase(source: string) {
    source == AUTO || source == PASS
  }

  lemma {:induction false} SourceBases()
    ensures SourceBase("auto-key") == AUTO && SourceBase("auto-key (staged)") == AUTO && SourceBase("auto-key (dry-run)") == AUTO
    ensures SourceBase("passphrase") == PASS && SourceBase("passphrase (staged)") == PASS
    ensures SourceBase("passphrase (dry-run)") == PASS
  {
    assert "auto-key (staged)"[8..] == " (staged)" && "auto-key (dry-run)"[8..] == " (dry-run)";
    assert "passphrase (staged)"[10..] == " (staged)" && "passphrase (dry-run)"[10..] == " (dry-run)";
    assert "auto-key (dry-run)"[9..] != " (staged)" && "passphrase (dry-run)"[11..] != " (staged)";
  }

  predicate OneOf(s: string, base: string) {
    s == base || s == base + " (staged)" || s == base + " (dry-run)" || s == base + " (dry-run)" + " (staged)"
  }

  /** Exactly these names are stripped to one that PromoteKeyFiles knows. */
  lemma {:induction false} SourceBaseIff(s: string, base: string)
    requires IsBase(base)
    ensures SourceBase(s) == base <==> OneOf(s, base)
  {
    assert base[|base|-1] == 'y' || base[|base|-1] == 'e';
    var t := TrimSuffix(s, " (staged)");
    TrimSuffixIff(s, " (staged)", base);
    var x := base + " (dry-run)";
    assert x[|x|-9..][7] == 'n' && " (staged)"[7] == 'd';
    TrimSuffixIff(s, " (staged)", x);
    TrimSuffixIff(t, " (dry-run)", base);
  }

  lemma {:induction false} TrimSuffixIff(s: string, suffix: string, x: string)
    requires |suffix| > 0
    requires |x| >= |suffix| ==> x[|x|-|suffix|..] != suffix
    ensures TrimSuffix(s, suffix) == x <==> s == x || s == x + suffix
  {
    assert (x + suffix)[|x|..] == suffix && (x + suffix)[..|x|] == x;
    if |suffix| <= |s| && s[|s|-|suffix|..] == suffix {
      assert s == s[..|s|-|suffix|] + suffix;
    }
  }

  // ----- The directory -----

  /** The staging files hold exactly the new key. */
  predicate Staged(f: Files, k: Key, base: string, passphrase: string) {
    || (base == AUTO && k.AutoKey? && f.keyNew == Some(Encoded(k.bytes)) && f.saltNew == None)
    || (base == PASS && k.Derived? && k.passphrase == passphrase && f.saltNew == Some(k.salt) && f.keyNew == None)
  }

  predicate SameButStaging(f: Files, g: Files) {
    f.key == g.key && f.salt == g.salt && f.keyBak == g.keyBak && f.saltBak == g.saltBak
  }

  /** What the current key is for a given value of the passphrase variable. */
  function CurrentKey(f: Files, passphrase: string): Option<Key> {
    if passphrase != "" then
      if f.salt.Some? && |f.salt.value| == SALT_LENGTH then Some(Derived(passphrase, f.salt.value)) else None
    else
      if f.key.Some? && f.key.value.Encoded? then Some(AutoKey(f.key.value.bytes)) else None
  }

  /** There is no current key yet, or a readable one. */
  predicate CurrentUsable(f: Files, passphrase: string) {
    if passphrase != "" then f.salt.Some? ==> |f.salt.value| == SALT_LENGTH
    else f.key.Some? ==> f.key.value.Encoded?
  }

  /** Nothing is staged, or one usable file; a staged salt needs its passphrase. */
  predicate StagingUsable(f: Files, passphrase: string) {
    && (f.keyNew.Some? ==> f.keyNew.value.Encoded? && f.saltNew == None)
    && (f.saltNew.Some? ==> passphrase != "" && f.saltNew.value != "")
  }

  class KeyDir {
    var files: Files

    constructor (files: Files)
      ensures this.files == files
    {
      this.files := files;
    }

    /** ResolveEncryptor: the current key, made and saved first if there is none. */
    method ResolveEncryptor(passphrase: string, freshKey: nat, freshSalt: string, faults: FaultPlan)
      returns (key: Result<Key, KeyError>)
      requires |freshSalt| == SALT_LENGTH
      modifies this, faults
      ensures key.Success? ==> CurrentKey(files, passphrase) == Some(key.value)
      ensures key.Failure? ==> files == old(files)
      ensures files == old(files)
           || (passphrase == "" && old(files).key == None && files == old(files).(key := Some(Encoded(freshKey))))
           || (passphrase != "" && old(files).salt == None && files == old(files).(salt := Some(freshSalt)))
      ensures faults.reliable ==> (key.Success? <==> CurrentUsable(old(files), passphrase))
      ensures passphrase != "" && old(files).salt.Some? && |old(files).salt.value| != 16 ==> key.Failure?
      ensures passphrase == "" && old(files).key == Some(Corrupt) ==> key.Failure?
      ensures key == Failure(BadSaltFile) ==> passphrase != "" && old(files).salt.Some? && |old(files).salt.value| != 16
      ensures key == Failure(BadKeyFile) ==> passphrase == "" && old(files).key == Some(Corrupt)
      ensures key.Failure? ==> key.error == BadSaltFile || key.error == BadKeyFile || (key.error == Io && !faults.reliable)
    {
      var ok := faults.Proceed();
      if !ok {
        return Failure(Io);
      }
      if passphrase != "" {
        if files.salt == None {
          files := files.(salt := Some(freshSalt));
        } else if |files.salt.value| != SALT_LENGTH {
          return Failure(BadSaltFile);
        }
        return Success(Derived(passphrase, files.salt.value));
      }
      if files.key == None {
        files := files.(key := Some(Encoded(freshKey)));
      } else if files.key.value.Corrupt? {
        return Failure(BadKeyFile);
      }
      return Success(AutoKey(files.key.value.bytes));
    }

    /** The new key and where it comes from: a staging file if there is one, otherwise fresh
        material, which is staged first unless this is a dry run. */
    method ResolveNewEncryptor(passphrase: string, dryRun: bool, freshKey: nat, freshSalt: string, faults: FaultPlan)
      returns (found: Result<(Key, string), KeyError>)
      requires |freshSalt| == SALT_LENGTH
      modifies this, faults
      ensures SameButStaging(files, old(files))
      ensures found.Failure? || dryRun ==> files == old(files)
      ensures old(files).keyNew.Some? || old(files).saltNew.Some? ==> files == old(files)
      ensures found.Success? ==> IsBase(SourceBase(found.value.1)) && (SourceBase(found.value.1) == PASS ==> passphrase != "")
      ensures found.Success? && (!dryRun || old(files).keyNew.Some? || old(files).saltNew.Some?) ==>
                Staged(files, found.value.0, SourceBase(found.value.1), passphrase)
      ensures old(files).keyNew.None? && old(files).saltNew.None? ==>
                (found.Success? ==> found.value.0 == if passphrase != "" then Derived(passphrase, freshSalt) else AutoKey(freshKey)) &&
                (faults.reliable ==> found.Success?)
      ensures old(files).keyNew.Some? && old(files).saltNew.Some? ==> found == Failure(ConflictingStaging)
      ensures old(files).saltNew.Some? && old(files).keyNew.None? && passphrase == "" ==> found == Failure(PassphraseNeeded)
      ensures faults.reliable ==> (found.Success? <==> StagingUsable(old(files), passphrase))
      ensures old(files).keyNew == Some(Corrupt) || old(files).saltNew == Some("") ==> found.Failure?
      ensures found == Failure(BadStagedKey) ==> old(files).keyNew == Some(Corrupt)
      ensures found == Failure(EmptySalt) ==> old(files).saltNew == Some("")
      ensures found == Failure(Io) ==> !faults.reliable
      ensures found.Failure? ==> !found.error.BadKeyFile? && !found.error.BadSaltFile? && !found.error.OldFileMissing?
      ensures found.Success? && old(files).keyNew.Some? ==> found.value.1 == "auto-key (staged)"
      ensures found.Success? && old(files).saltNew.Some? ==> found.value.1 == "passphrase (staged)"
      ensures found.Success? && old(files).keyNew == None && old(files).saltNew == None ==>
                found.value.1 == if passphrase != "" then (if dryRun then "passphrase (dry-run)" else "passphrase")
                                 else if dryRun then "auto-key (dry-run)" else "auto-key"
    {
      SourceBases();
      hide SourceBase;
      if files.keyNew.Some? && files.saltNew.Some? {
        return Failure(ConflictingStaging);
      }
      if files.saltNew.Some? && passphrase == "" {
        return Failure(PassphraseNeeded);
      }
      var ok := faults.Proceed();   // read or write the staging file
      if !ok {
        return Failure(Io);
      }
      if files.keyNew.Some? {
        if files.keyNew.value.Corrupt? {
          return Failure(BadStagedKey);
        }
        return Success((AutoKey(files.keyNew.value.bytes), "auto-key (staged)"));
      }
      if files.saltNew.Some? {
        if files.saltNew.value == "" {
          return Failure(EmptySalt);
        }
        return Success((Derived(passphrase, files.saltNew.value), "passphrase (staged)"));
      }
      if passphrase != "" {
        if !dryRun {
          files := files.(saltNew := Some(freshSalt));
        }
        return Success((Derived(passphrase, freshSalt), if dryRun then "passphrase (dry-run)" else "passphrase"));
      }
      if !dryRun {
        files := files.(keyNew := Some(Encoded(freshKey)));
      }
      return Success((AutoKey(freshKey), if dryRun then "auto-key (dry-run)" else "auto-key"));
    }

    /** Backs up the old file, moves the staged one into its place, and removes the old file if
        it was of the other kind. `at` counts the steps that took effect. */
    method PromoteKeyFiles(oldSource: string, newSource: string, faults: FaultPlan)
      returns (outcome: Result<(), KeyError>, ghost at: nat)
      modifies this, faults
      ensures !IsBase(oldSource) || !IsBase(newSource) ==> outcome.Success? && files == old(files)
      ensures IsBase(oldSource) && IsBase(newSource) ==>
                at < |Promotion(old(files), oldSource, newSource)| && files == Promotion(old(files), oldSource, newSource)[at]
      ensures outcome.Success? && IsBase(oldSource) && IsBase(newSource) ==>
                at >= 2 && OldFile(old(files), oldSource) && StagedFile(old(files), newSource)
      ensures outcome.Success? && faults.reliable && IsBase(oldSource) && IsBase(newSource) ==>
                at == |Promotion(old(files), oldSource, newSource)| - 1
      ensures outcome.Failure? ==> at < 2 && (outcome.error == OldFileMissing ==> at == 0)
      ensures faults.reliable && OldFile(old(files), oldSource) && StagedFile(old(files), newSource) ==> outcome.Success?
      ensures outcome == Failure(OldFileMissing) <==> IsBase(oldSource) && IsBase(newSource) && !OldFile(old(files), oldSource)
      ensures outcome == Failure(StagedFileMissing) ==> OldFile(old(files), oldSource) && !StagedFile(old(files), newSource) && at == 1
      ensures outcome.Failure? ==> outcome.error == OldFileMissing || outcome.error == StagedFileMissing || (outcome.error == Io && !faults.reliable)
      ensures outcome.Success? && faults.reliable && oldSource == "auto-key" && newSource == "auto-key" ==>
                files == Files(old(files).keyNew, old(files).salt, None, old(files).saltNew, old(files).key, old(files).saltBak)
      ensures outcome.Success? && faults.reliable && oldSource == "auto-key" && newSource == "passphrase" ==>
                files == Files(None, old(files).saltNew, old(files).keyNew, None, old(files).key, old(files).saltBak)
      ensures outcome.Success? && faults.reliable && oldSource == "passphrase" && newSource == "passphrase" ==>
                files == Files(old(files).key, old(files).saltNew, old(files).keyNew, None, old(files).keyBak, old(files).salt)
      ensures outcome.Success? && faults.reliable && oldSource == "passphrase" && newSource == "auto-key" ==>
                files == Files(old(files).keyNew, None, None, old(files).saltNew, old(files).keyBak, old(files).salt)
    {
      at := 0;
      PromotionSteps(files);
      if !IsBase(oldSource) || !IsBase(newSource) {
        return Success(()), at;   // no case of the switch applies
      }
      if !OldFile(files, oldSource) {
        return Failure(OldFileMissing), at;
      }
      var ok := faults.Proceed();
      if !ok {
        return Failure(Io), at;
      }
      files := BackUp(files, oldSource);
      at := 1;
      ok := faults.Proceed();
      if !ok {
        return Failure(Io), at;
      }
      if !StagedFile(files, newSource) {
        return Failure(StagedFileMissing), at;
      }
      files := Rename(files, newSource);
      at := 2;
      if oldSource != newSource {
        ok := faults.Proceed();   // os.Remove, its error ignored
        if ok {
          files := RemoveOld(files, oldSource);
          at := 3;
        }
      }
      return Success(()), at;
    }

    method CleanupStagingFiles(faults: FaultPlan)
      modifies this, faults
      ensures SameButStaging(files, old(files))
      ensures files.keyNew == old(files).keyNew || files.keyNew == None
      ensures files.saltNew == old(files).saltNew || files.saltNew == None
      ensures faults.reliable ==> files == old(files).(keyNew := None, saltNew := None)
    {
      var ok := faults.Proceed();
      if ok {
        files := files.(keyNew := None);
      }
      ok := faults.Proceed();
      if ok {
        files := files.(saltNew := None);
      }
    }
  }

  // ----- Promotion, step by step -----

  predicate OldFile(f: Files, source: string) {
    if source == AUTO then f.key.Some? else f.salt.Some?
  }

  predicate StagedFile(f: Files, source: string) {
    if source == AUTO then f.keyNew.Some? else f.saltNew.Some?
  }

  function BackUp(f: Files, oldSource: string): Files {
    if oldSource == AUTO then f.(keyBak := f.key) else f.(saltBak := f.salt)
  }

  function Rename(f: Files, newSource: string): Files {
    if newSource == AUTO then f.(key := f.keyNew, keyNew := None) else f.(salt := f.saltNew, saltNew := None)
  }

  function RemoveOld(f: Files, oldSource: string): Files {
    if oldSource == AUTO then f.(key := None) else f.(salt := None)
  }

  /** The directory before the promotion and after each of its steps. */
  function Promotion(f: Files, oldSource: string, newSource: string): seq<Files> {
    var backedUp := BackUp(f, oldSource);
    var renamed := Rename(backedUp, newSource);
    [f, backedUp, renamed] + (if oldSource != newSource then [RemoveOld(renamed, oldSource)] else [])
  }

  /** The end of each of the four promotions, file by file: the backup is the old file, the current
      file is the staged one, and of a change of kind the old file is gone. */
  lemma PromotionSteps(f: Files)
    ensures Promotion(f, "auto-key", "auto-key")[2..] == [Files(f.keyNew, f.salt, None, f.saltNew, f.key, f.saltBak)]
    ensures Promotion(f, "auto-key", "passphrase")[2..]
         == [Files(f.key, f.saltNew, f.keyNew, None, f.key, f.saltBak), Files(None, f.saltNew, f.keyNew, None, f.key, f.saltBak)]
    ensures Promotion(f, "passphrase", "passphrase")[2..] == [Files(f.key, f.saltNew, f.keyNew, None, f.keyBak, f.salt)]
    ensures Promotion(f, "passphrase", "auto-key")[2..]
         == [Files(f.keyNew, f.salt, None, f.saltNew, f.keyBak, f.salt), Files(f.keyNew, None, None, f.saltNew, f.keyBak, f.salt)]
  {
  }

  /** And its first two steps. */
  lemma PromotionMiddle(f: Files, oldSource: string, newSource: string)
    requires IsBase(oldSource) && IsBase(newSource)
    ensures Promotion(f, oldSource, newSource)[..2]
         == [f, if oldSource == "auto-key" then Files(f.key, f.salt, f.keyNew, f.saltNew, f.key, f.saltBak)
                else Files(f.key, f.salt, f.keyNew, f.saltNew, f.keyBak, f.salt)]
  {
  }

  /** At no step of a promotion is the new key off the disk, and the last step leaves it as the
      current key. */
  lemma PromotionKeepsNewKey(f: Files, k: Key, oldSource: string, newSource: string, passphrase: string, at: nat)
    requires IsBase(oldSource) && IsBase(newSource) && Staged(f, k, newSource, passphrase)
    requires at < |Promotion(f, oldSource, newSource)|
    ensures OnDisk(Promotion(f, oldSource, newSource)[at], k)
    ensures at >= 2 ==> var g := Promotion(f, oldSource, newSource)[at];
              OnDisk(g.(keyNew := None, saltNew := None), k) && g.keyNew == None && g.saltNew == None
              && (if newSource == AUTO then CurrentKey(g, "") == Some(k)
                  else passphrase != "" && |k.salt| == SALT_LENGTH ==> CurrentKey(g, passphrase) == Some(k))
  {
  }

  /** The old key survives one promotion too, in the backup. */
  lemma PromotionKeepsOldKey(f: Files, k: Key, oldSource: string, newSource: string, passphrase: string, at: nat)
    requires IsBase(oldSource) && IsBase(newSource) && at < |Promotion(f, oldSource, newSource)|
    requires CurrentKey(f, passphrase) == Some(k) && (passphrase == "" <==> oldSource == AUTO)
    ensures OnDisk(Promotion(f, oldSource, newSource)[at], k)
  {
  }

  /** What is still on disk after the first `at` steps of a promotion, told from the files before
      it. The backup overwrites an earlier backup of the same kind; the rename overwrites a file
      that was neither the old key nor backed up. */
  predicate Survives(f: Files, oldSource: string, newSource: string, at: nat, k: Key) {
    match k
    case AutoKey(b) =>
      || f.keyNew == Some(Encoded(b))
      || (f.key == Some(Encoded(b)) && !(at >= 2 && oldSource == PASS && newSource == AUTO))
      || (f.keyBak == Some(Encoded(b)) && !(at >= 1 && oldSource == AUTO))
    case Derived(_, s) =>
      || f.saltNew == Some(s)
      || (f.salt == Some(s) && !(at >= 2 && oldSource == AUTO && newSource == PASS))
      || (f.saltBak == Some(s) && !(at >= 1 && oldSource == PASS))
  }

  /** For all four promotions and every step of them. */
  lemma SurvivesIff(f: Files, oldSource: string, newSource: string, at: nat, k: Key)
    requires IsBase(oldSource) && IsBase(newSource) && at < |Promotion(f, oldSource, newSource)|
    ensures OnDisk(Promotion(f, oldSource, newSource)[at], k) <==> Survives(f, oldSource, newSource, at, k)
  {
  }

  /** But not a second one of the same kind. */
  lemma SecondPromotionDropsTheFirstKey(f: Files, k0: nat, k1: nat, k2: nat)
    requires f.key == Some(Encoded(k0)) && f.keyNew == Some(Encoded(k1)) && k0 != k1 && k0 != k2
    ensures var once := Promotion(f, AUTO, AUTO)[2];
            var twice := Promotion(once.(keyNew := Some(Encoded(k2))), AUTO, AUTO)[2];
            OnDisk(once, AutoKey(k0)) && !OnDisk(twice, AutoKey(k0)) && OnDisk(twice, AutoKey(k1)) && OnDisk(twice, AutoKey(k2))
  {
  }
}
