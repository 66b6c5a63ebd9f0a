/*
 * Structural validity checks of lib/valid.c.
 */
module Valid {
  import opened Types

  /** validate_flink_dev: a non-null handle whose descriptor is not 0. */
  predicate ValidateFlinkDev(dev: Device?)
  {
    dev != null && dev.fd != 0
  }

  /**
   * Only a non-null handle passes and descriptor 0 is rejected; every other
   * descriptor passes, the -1 a failed open(2) leaves behind included.
   */
  lemma ValidateFlinkDevCases(dev: Device?)
    ensures ValidateFlinkDev(dev) ==> dev != null
    ensures dev != null && dev.fd == 0 ==> !ValidateFlinkDev(dev)
    ensures dev != null && dev.fd > 0 ==> ValidateFlinkDev(dev)
    ensures dev != null && dev.fd < 0 ==> ValidateFlinkDev(dev)
  {
  }

  /**
   * validate_flink_subdev: the subdevice has a parent and at least one
   * channel. The subdevice pointer itself is dereferenced unchecked, which
   * the model reflects by passing the subdevice as a value.
   */
  predicate ValidateFlinkSubdev(sub: Subdevice)
  {
    sub.parent != null && sub.nofChannels > 0
  }

  /** A subdevice passes exactly when it has a parent and at least one channel. */
  lemma ValidateFlinkSubdevCases(sub: Subdevice)
    ensures sub.parent == null ==> !ValidateFlinkSubdev(sub)
    ensures sub.nofChannels == 0 ==> !ValidateFlinkSubdev(sub)
    ensures sub.parent != null && sub.nofChannels >= 1 ==> ValidateFlinkSubdev(sub)
  {
  }
}
