/**
 * SecureObjectInputStream: the allow-list that decides which classes deserialization may
 * resolve. A class name resolves iff it is one of the allowed class names or starts with one of
 * the allowed package prefixes; anything else is an InvalidClassException. The stream itself
 * (reading objects) is not modelled, only the decision and the two sets it reads.
 */
module SecureObjectInputStreams {
  import opened Wrappers
  import opened Errors

  /** The classes every stream allows: wrappers and basic types, dates, primitive arrays, common collections, UUID. */
  const SafeDefaults: set<string> := {
    "java.lang.String", "java.lang.Integer", "java.lang.Long", "java.lang.Double", "java.lang.Float",
    "java.lang.Boolean", "java.lang.Byte", "java.lang.Short", "java.lang.Character", "java.lang.Number",
    "java.util.Date", "java.sql.Date", "java.sql.Time", "java.sql.Timestamp",
    "[B", "[C", "[I", "[J", "[F", "[D", "[Z", "[S",
    "java.util.ArrayList", "java.util.HashMap", "java.util.HashSet", "java.util.LinkedList", "java.util.TreeMap",
    "java.util.TreeSet",
    "java.util.UUID"}

  /** String.startsWith. */
  predicate StartsWith(s: string, prefix: string)
  {
    prefix <= s
  }

  /** The decision of resolveClass over the two sets. */
  predicate Admits(classes: set<string>, prefixes: set<string>, className: string)
  {
    className in classes || exists prefix :: prefix in prefixes && StartsWith(className, prefix)
  }

  /** Allowing a class or a prefix never revokes anything: the decision is monotone in both sets. */
  lemma AdmitsMonotone(classes: set<string>, prefixes: set<string>, moreClasses: set<string>, morePrefixes: set<string>, className: string)
    requires classes <= moreClasses && prefixes <= morePrefixes
    ensures Admits(classes, prefixes, className) ==> Admits(moreClasses, morePrefixes, className)
  {
    if className !in classes && Admits(classes, prefixes, className) {
      var prefix :| prefix in prefixes && StartsWith(className, prefix);
      assert prefix in morePrefixes;
    }
  }

  /** The empty prefix admits every class. */
  lemma EmptyPrefixAdmitsAll(classes: set<string>, prefixes: set<string>, className: string)
    requires "" in prefixes
    ensures Admits(classes, prefixes, className)
  {
    assert StartsWith(className, "");
  }

  /** With no prefixes only the listed classes resolve. */
  lemma NoPrefixesOnlyListed(classes: set<string>, className: string)
    ensures Admits(classes, {}, className) <==> className in classes
  {
  }

  /**
   * A prefix is matched as text, not as a package: "fr.maxlego08.sarah.models" also admits
   * classes of the package "fr.maxlego08.sarah.modelsx".
   */
  lemma PrefixIsTextual()
    ensures Admits({}, {"fr.maxlego08.sarah.models"}, "fr.maxlego08.sarah.modelsx.Payload")
  {
    assert StartsWith("fr.maxlego08.sarah.modelsx.Payload", "fr.maxlego08.sarah.models");
  }

  /** The safe defaults alone refuse a class outside them, such as a gadget class. */
  lemma DefaultsRefuseGadget()
    ensures !Admits(SafeDefaults, {}, "org.apache.commons.collections.functors.InvokerTransformer")
  {
    NoPrefixesOnlyListed(SafeDefaults, "org.apache.commons.collections.functors.InvokerTransformer");
  }

  class SecureObjectInputStream {
    var allowedClasses: set<string>
    var allowedPackagePrefixes: set<string>

    /** The decision for the sets as they stand. */
    predicate Admitted(className: string)
      reads this
    {
      Admits(allowedClasses, allowedPackagePrefixes, className)
    }

    /** SecureObjectInputStream(in, classes...): the safe defaults plus each given class's name; no prefix. */
    constructor WithClasses(classNames: seq<string>)
      ensures allowedClasses == SafeDefaults + set k | 0 <= k < |classNames| :: classNames[k]
      ensures allowedPackagePrefixes == {}
    {
      allowedClasses := {};
      allowedPackagePrefixes := {};
      new;
      allowedClasses := allowedClasses + SafeDefaults;
      var k := 0;
      while k < |classNames|
        invariant 0 <= k <= |classNames|
        invariant allowedClasses == SafeDefaults + set j | 0 <= j < k :: classNames[j]
        invariant allowedPackagePrefixes == {}
      {
        allowedClasses := allowedClasses + {classNames[k]};
        k := k + 1;
      }
    }

    /** SecureObjectInputStream(in, classes, prefixes): copies of the caller's sets, then the safe defaults. */
    constructor WithSets(classes: set<string>, prefixes: set<string>)
      ensures allowedClasses == classes + SafeDefaults
      ensures allowedPackagePrefixes == prefixes
    {
      allowedClasses := classes;
      allowedPackagePrefixes := prefixes;
      new;
      allowedClasses := allowedClasses + SafeDefaults;
    }

    /** resolveClass: the exact names first, then each prefix in turn; otherwise InvalidClassException. */
    method ResolveClass(className: string) returns (r: Result<string, Error>)
      ensures r.Ok? <==> Admitted(className)
      ensures r.Ok? ==> r.value == className
      ensures r.Err? ==> r.error == InvalidClass(className)
    {
      if className in allowedClasses {
        return Ok(className);
      }
      var remaining := allowedPackagePrefixes;
      while remaining != {}
        invariant remaining <= allowedPackagePrefixes
        invariant forall prefix :: prefix in allowedPackagePrefixes && prefix !in remaining ==> !StartsWith(className, prefix)
        decreases |remaining|
      {
        var prefix :| prefix in remaining;
        if StartsWith(className, prefix) {
          return Ok(className);
        }
        remaining := remaining - {prefix};
      }
      return Err(InvalidClass(className));
    }

    /** allowClass: one more class name. */
    method AllowClass(className: string)
      modifies this
      ensures allowedClasses == old(allowedClasses) + {className}
      ensures allowedPackagePrefixes == old(allowedPackagePrefixes)
    {
      allowedClasses := allowedClasses + {className};
    }

    /** allowPackagePrefix: one more prefix. */
    method AllowPackagePrefix(prefix: string)
      modifies this
      ensures allowedPackagePrefixes == old(allowedPackagePrefixes) + {prefix}
      ensures allowedClasses == old(allowedClasses)
    {
      allowedPackagePrefixes := allowedPackagePrefixes + {prefix};
    }
  }
}
