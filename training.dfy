/**
 * The training control panel (frontend/src/routes/TrainingPage.js):
 * the reshaping of the training metrics into chart series, the validation of
 * the epochs and batch-size fields, and the Start/Stop button with its abort
 * dialog, which follow the training status reported by the backend.
 */
module Training {

  // ---------------------------------------------------------------------------
  // filterData: metric name -> value list, reshaped into chart series
  // ---------------------------------------------------------------------------

  /** One entry of `Object.entries(data)`: a metric name and its values. */
  datatype Entry<T> = Entry(key: string, values: seq<T>)

  /** A chart series `{ name, data }`. */
  datatype Series<T> = Series(name: string, data: seq<T>)

  /** The only metric left out of the chart (`excludedPoints`). */
  const Epoch: string := "epoch"

  /** A one-point series is drawn as two equal points; any other list is kept. */
  function Padded<T>(values: seq<T>): (r: seq<T>)
    ensures |values| == 1 ==> r == [values[0], values[0]]
    ensures |values| != 1 ==> r == values
  {
    if |values| == 1 then values + values else values
  }

  /** The series one entry contributes: none for `epoch`, one otherwise. */
  function SeriesOf<T>(e: Entry<T>): seq<Series<T>>
  {
    if e.key == Epoch then [] else [Series(e.key, Padded(e.values))]
  }

  /** The chart data for a list of entries, entry by entry. */
  function Filtered<T>(entries: seq<Entry<T>>): seq<Series<T>>
  {
    if entries == [] then [] else SeriesOf(entries[0]) + Filtered(entries[1..])
  }

  function Keys<T>(entries: seq<Entry<T>>): seq<string>
  {
    seq(|entries|, i requires 0 <= i < |entries| => entries[i].key)
  }

  function Names<T>(series: seq<Series<T>>): seq<string>
  {
    seq(|series|, i requires 0 <= i < |series| => series[i].name)
  }

  /** Object keys are pairwise distinct. */
  predicate DistinctKeys<T>(entries: seq<Entry<T>>)
  {
    forall i, j :: 0 <= i < j < |entries| ==> entries[i].key != entries[j].key
  }

  /** Filtering distributes over concatenation: the output keeps the input order. */
  lemma {:induction false} FilteredConcat<T>(a: seq<Entry<T>>, b: seq<Entry<T>>)
    ensures Filtered(a + b) == Filtered(a) + Filtered(b)
  {
    if a == [] {
      assert a + b == b;
    } else {
      assert (a + b)[0] == a[0];
      assert (a + b)[1..] == a[1..] + b;
      FilteredConcat(a[1..], b);
    }
  }

  /**
   * Every series is named after an input key other than `epoch`, and its data
   * is that entry's values, padded.
   */
  lemma {:induction false} FilteredFromEntries<T>(entries: seq<Entry<T>>)
    ensures forall s :: s in Filtered(entries) ==>
      s.name != Epoch && exists e :: e in entries && e.key == s.name && s.data == Padded(e.values)
  {
    if entries != [] {
      FilteredFromEntries(entries[1..]);
      forall s | s in Filtered(entries)
        ensures s.name != Epoch && exists e :: e in entries && e.key == s.name && s.data == Padded(e.values)
      {
        if s in SeriesOf(entries[0]) {
          assert entries[0] in entries;
        } else {
          assert s in Filtered(entries[1..]);
          var e :| e in entries[1..] && e.key == s.name && s.data == Padded(e.values);
          assert e in entries;
        }
      }
    }
  }

  /**
   * Each key other than `epoch` gives as many series as it has entries, and
   * `epoch` gives none.
   */
  lemma {:induction false} FilteredNameCount<T>(entries: seq<Entry<T>>, k: string)
    ensures multiset(Names(Filtered(entries)))[k] ==
            if k == Epoch then 0 else multiset(Keys(entries))[k]
  {
    if entries != [] {
      FilteredNameCount(entries[1..], k);
      var head, tail := SeriesOf(entries[0]), Filtered(entries[1..]);
      NamesConcat(head, tail);
      assert multiset(Names(head + tail)) == multiset(Names(head)) + multiset(Names(tail));
      var key := entries[0].key;
      assert Keys(entries) == [key] + Keys(entries[1..]);
      assert multiset(Keys(entries)) == multiset{key} + multiset(Keys(entries[1..]));
      if key == Epoch {
        assert Names(head) == [];
      } else {
        assert Names(head) == [key];
      }
    }
  }

  lemma NamesConcat<T>(a: seq<Series<T>>, b: seq<Series<T>>)
    ensures Names(a + b) == Names(a) + Names(b)
  {
  }

  /** With distinct keys (an object's), each key other than `epoch` gives exactly one series. */
  lemma OneSeriesPerKey<T>(entries: seq<Entry<T>>, k: string)
    requires DistinctKeys(entries)
    requires k in Keys(entries) && k != Epoch
    ensures multiset(Names(Filtered(entries)))[k] == 1
  {
    FilteredNameCount(entries, k);
    DistinctCount(entries, k);
  }

  lemma {:induction false} DistinctCount<T>(entries: seq<Entry<T>>, k: string)
    requires DistinctKeys(entries)
    requires k in Keys(entries)
    ensures multiset(Keys(entries))[k] == 1
  {
    assert Keys(entries) == [entries[0].key] + Keys(entries[1..]);
    if entries[0].key == k {
      assert k !in Keys(entries[1..]);
    } else {
      DistinctCount(entries[1..], k);
    }
  }

  /**
   * filterData: walks the entries in order and pushes one series for every
   * metric other than `epoch`, doubling one-point value lists.
   */
  method FilterData<T>(data: seq<Entry<T>>) returns (newData: seq<Series<T>>)
    ensures newData == Filtered(data)
  {
    newData := [];
    var i := 0;
    while i < |data|
      invariant 0 <= i <= |data|
      invariant newData == Filtered(data[..i])
    {
      var dataName, values := data[i].key, data[i].values;
      if dataName != Epoch {
        if |values| == 1 {
          values := values + values;
        }
        newData := newData + [Series(dataName, values)];
      }
      assert data[..i + 1] == data[..i] + [data[i]];
      FilteredConcat(data[..i], [data[i]]);
      i := i + 1;
    }
    assert data[..i] == data;
  }

  // ---------------------------------------------------------------------------
  // The page's state: field validation and the Start/Stop control
  // ---------------------------------------------------------------------------

  /**
   * The value of a number field as `value > 0` sees it: an integer, or a text
   * that does not read as a number (an empty field).
   */
  datatype FieldValue = Number(n: int) | NotANumber

  /** `value > 0`; a value that is not a number compares false. */
  predicate IsPositive(v: FieldValue)
  {
    v.Number? && v.n > 0
  }

  datatype ButtonLabel = Start | Stop

  /** The label the button shows for a training status. */
  function LabelFor(trainingStatus: bool): ButtonLabel
  {
    if trainingStatus then Stop else Start
  }

  /** Calls the page makes on the REST client, in order. */
  datatype Request =
    | TrainModel(datasetID: string, modelID: string, labels: seq<string>,
                 epochs: FieldValue, batchSize: FieldValue)
    | StopTraining

  /** The helper text under a field. */
  function HelperText(error: bool): (t: string)
    ensures error <==> t == "Required!"
  {
    if error then "Required!" else " "
  }

  class TrainingPage {
    // State shared through the training context.
    var trainingStatus: bool
    var selectedEpochs: FieldValue
    var selectedBatchSize: FieldValue
    // The page's own state.
    var epochsError: bool
    var batchSizeError: bool
    var loadTraining: bool
    var showDialog: bool
    var startStopButton: ButtonLabel
    var requests: seq<Request>

    /**
     * The label follows the status, the abort dialog is only open while
     * training, the spinner only shows while waiting for training to start,
     * and an error flag is only set on a field whose value is not > 0.
     */
    ghost predicate Valid()
      reads this
    {
      && startStopButton == LabelFor(trainingStatus)
      && (showDialog ==> trainingStatus)
      && (loadTraining ==> !trainingStatus)
      && (epochsError ==> !IsPositive(selectedEpochs))
      && (batchSizeError ==> !IsPositive(selectedBatchSize))
    }

    /** Mounting the page: initial state, then the status effect runs once. */
    constructor (status: bool, epochs: FieldValue, batchSize: FieldValue)
      ensures Valid()
      ensures trainingStatus == status
      ensures selectedEpochs == epochs && selectedBatchSize == batchSize
      ensures !epochsError && !batchSizeError && !loadTraining && !showDialog
      ensures startStopButton == LabelFor(status)
      ensures requests == []
    {
      trainingStatus := status;
      selectedEpochs, selectedBatchSize := epochs, batchSize;
      epochsError, batchSizeError := false, false;
      loadTraining, showDialog := false, false;
      startStopButton := Start;
      requests := [];
      new;
      StatusEffect();
    }

    /** The body of the effect on `trainingStatus`. */
    method StatusEffect()
      modifies this
      ensures trainingStatus ==> !loadTraining && showDialog == old(showDialog)
      ensures !trainingStatus ==> !showDialog && loadTraining == old(loadTraining)
      ensures startStopButton == LabelFor(trainingStatus)
      ensures trainingStatus == old(trainingStatus) && requests == old(requests)
      ensures selectedEpochs == old(selectedEpochs) && selectedBatchSize == old(selectedBatchSize)
      ensures epochsError == old(epochsError) && batchSizeError == old(batchSizeError)
    {
      if trainingStatus {
        loadTraining := false;
        startStopButton := Stop;
      } else {
        showDialog := false;
        startStopButton := Start;
      }
    }

    /**
     * The backend reports a training status; the effect runs when it differs
     * from the previous one. When training starts the spinner stops and the
     * label becomes Stop; when it ends the abort dialog closes and the label
     * becomes Start.
     */
    method SetTrainingStatus(status: bool)
      requires Valid()
      modifies this
      ensures Valid()
      ensures trainingStatus == status && startStopButton == LabelFor(status)
      ensures status ==> !loadTraining && showDialog == old(showDialog)
      ensures !status ==> !showDialog && loadTraining == old(loadTraining)
      ensures status == old(trainingStatus) ==>
        loadTraining == old(loadTraining) && showDialog == old(showDialog)
      ensures requests == old(requests)
      ensures selectedEpochs == old(selectedEpochs) && selectedBatchSize == old(selectedBatchSize)
      ensures epochsError == old(epochsError) && batchSizeError == old(batchSizeError)
    {
      if status != trainingStatus {
        trainingStatus := status;
        StatusEffect();
      }
    }

    /**
     * handleEpochsChange: the entered value is stored whether valid or not,
     * and the error flag is set exactly when it is not > 0.
     */
    method HandleEpochsChange(value: FieldValue)
      requires Valid()
      modifies this
      ensures Valid()
      ensures selectedEpochs == value
      ensures epochsError <==> !IsPositive(value)
      ensures selectedBatchSize == old(selectedBatchSize) && batchSizeError == old(batchSizeError)
      ensures trainingStatus == old(trainingStatus) && loadTraining == old(loadTraining)
      ensures showDialog == old(showDialog) && startStopButton == old(startStopButton)
      ensures requests == old(requests)
    {
      selectedEpochs := value;
      if value.Number? && value.n > 0 {
        epochsError := false;
      } else {
        epochsError := true;
      }
    }

    /** handleBatchSizeChange: the same as for epochs, on the batch size. */
    method HandleBatchSizeChange(value: FieldValue)
      requires Valid()
      modifies this
      ensures Valid()
      ensures selectedBatchSize == value
      ensures batchSizeError <==> !IsPositive(value)
      ensures selectedEpochs == old(selectedEpochs) && epochsError == old(epochsError)
      ensures trainingStatus == old(trainingStatus) && loadTraining == old(loadTraining)
      ensures showDialog == old(showDialog) && startStopButton == old(startStopButton)
      ensures requests == old(requests)
    {
      selectedBatchSize := value;
      if value.Number? && value.n > 0 {
        batchSizeError := false;
      } else {
        batchSizeError := true;
      }
    }

    /**
     * The Start/Stop button's `disabled` flag. A disabled button always has an
     * entered value behind it that is not > 0.
     */
    function StartStopDisabled(): (disabled: bool)
      reads this
      requires Valid()
      ensures disabled ==> !IsPositive(selectedEpochs) || !IsPositive(selectedBatchSize)
      ensures disabled <==> epochsError || batchSizeError
    {
      epochsError || batchSizeError
    }

    /**
     * handleStartStop: while training it opens the abort dialog and sends
     * nothing; while idle it shows the spinner and sends exactly one train
     * request with the current selection.
     */
    method HandleStartStop(datasetID: string, modelID: string, labels: seq<string>)
      requires Valid()
      modifies this
      ensures Valid()
      ensures old(trainingStatus) ==>
        showDialog && loadTraining == old(loadTraining) && requests == old(requests)
      ensures !old(trainingStatus) ==>
        loadTraining && showDialog == old(showDialog) &&
        requests == old(requests) +
          [TrainModel(datasetID, modelID, labels, selectedEpochs, selectedBatchSize)]
      ensures trainingStatus == old(trainingStatus) && startStopButton == old(startStopButton)
      ensures selectedEpochs == old(selectedEpochs) && selectedBatchSize == old(selectedBatchSize)
      ensures epochsError == old(epochsError) && batchSizeError == old(batchSizeError)
    {
      if trainingStatus {
        showDialog := true;
      } else {
        loadTraining := true;
        requests := requests + [TrainModel(datasetID, modelID, labels, selectedEpochs, selectedBatchSize)];
      }
    }

    /** handleCloseDialog: the Cancel button. */
    method HandleCloseDialog()
      requires Valid()
      modifies this`showDialog
      ensures Valid() && !showDialog
    {
      showDialog := false;
    }

    /** abortTraining: sends the stop request and always closes the dialog. */
    method AbortTraining()
      requires Valid()
      modifies this`requests, this`showDialog
      ensures Valid() && !showDialog
      ensures requests == old(requests) + [StopTraining]
    {
      requests := requests + [StopTraining];
      HandleCloseDialog();
    }
  }
}
