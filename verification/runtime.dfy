/** Java runtimes as the launcher sees them: installations, versions and the
    criteria a build can declare for the runtime of its daemon. */
module Runtime {
  import opened Wrappers

  /** A file-system path. */
  type Path = string

  /** A Java version, identified by its major number (8, 11, 17, 21, ...). */
  datatype JavaVersion = JavaVersion(major: nat)

  /** A handle on a `Jvm` object. The launcher compares these objects by
      reference, so two handles denote the same object exactly when they are
      equal; `instance` tells apart two objects that describe the same
      installation directory. */
  datatype Jvm = Jvm(instance: nat, javaHome: Path)

  /** The implementation a criterion asks for. */
  datatype JvmImplementation = VendorSpecific | J9

  /** Declared daemon-JVM criteria: a language version, a vendor (`None` stands
      for any vendor) and an implementation. */
  datatype JvmCriteria = JvmCriteria(javaVersion: nat, vendor: Option<string>, implementation: JvmImplementation)

  /** The Java version a criterion's language version converts to. */
  function CriteriaJavaVersion(c: JvmCriteria): JavaVersion {
    JavaVersion(c.javaVersion)
  }

  /** Java's 32-bit `int`. */
  newtype Int32 = x: int | -0x8000_0000 <= x < 0x8000_0000
}
