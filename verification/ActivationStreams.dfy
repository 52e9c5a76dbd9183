/** The streams of the offload handler. Copies run on streams of their own, outward (device to host)
    and inward (host to device), next to the compute stream; a wait makes what one stream does from
    now on come after everything issued so far on another. Tracked are the tags for which such an
    order is still missing. */
module ActivationStreams {
  import opened ActivationOffload

  datatype Streams = Streams(
    unsaved: set<Tag>, // computed, and the outward stream has not waited for it
    outward: set<Tag>, // being copied to the host, and the compute stream has not waited for it
    unseen: set<Tag>, // being copied to the host, and the inward stream has not waited for it
    inward: set<Tag> // being copied back, and the compute stream has not waited for it
  )

  /** Every stream is in order with every other. */
  const QUIET := Streams({}, {}, {}, {})

  function Computed(s: Streams, tag: Tag): Streams {
    s.(unsaved := s.unsaved + {tag})
  }

  /** `d2h_stream.wait_stream(current_stream)`. */
  function OutwardWaits(s: Streams): Streams {
    s.(unsaved := {})
  }

  /** `current_stream.wait_stream(d2h_stream)`. */
  function ComputeWaitsOutward(s: Streams): Streams {
    s.(outward := {})
  }

  /** `h2d_stream.wait_stream(current_stream)`: what the compute stream has waited for, the inward
      stream now has too. */
  function InwardWaits(s: Streams): Streams {
    s.(unseen := s.unseen * s.outward)
  }

  /** `current_stream.wait_stream(h2d_stream)`. */
  function ComputeWaitsInward(s: Streams): Streams {
    s.(inward := {}, outward := s.outward * s.unseen)
  }

  /** Copies to the host are issued: they read tensors that must have been computed. */
  function IssueOutward(s: Streams, tags: set<Tag>): Streams {
    s.(outward := s.outward + tags, unseen := s.unseen + tags)
  }

  /** Copies back are issued: they read host copies that must be complete. */
  function IssueInward(s: Streams, tags: set<Tag>): Streams {
    s.(inward := s.inward + tags)
  }

  function TagsOf(keys: set<Tag>, k: int): set<Tag> {
    set tag | tag in keys && tag.group == k
  }

  /** The tags of a group whose tensors are on the host. */
  function MovedOf(states: States, k: int): set<Tag> {
    set tag | tag in states && tag.group == k && states[tag].Moved?
  }
}
