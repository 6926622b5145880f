/**
 * The rosbag2 SequentialWriter as the converter uses it: opened on a file
 * name, appended to by write(topic, msg), closed once.
 */
module BagFile {
  import opened Messages

  class BagWriter {
    const uri: string
    var log: seq<Record>
    var closed: bool

    /** create_bag_writer(filename) */
    constructor (filename: string)
      ensures uri == filename && log == [] && !closed
    {
      uri := filename;
      log := [];
      closed := false;
    }

    /** bag.write(topic, msg): the message as it is at this call is appended. */
    method Write(topic: string, msg: Msg)
      requires !closed
      modifies this
      ensures log == old(log) + [Record(topic, msg)]
      ensures !closed
    {
      log := log + [Record(topic, msg)];
    }

    /** bag.close() */
    method Close()
      modifies this
      ensures closed && log == old(log)
    {
      closed := true;
    }
  }
}
