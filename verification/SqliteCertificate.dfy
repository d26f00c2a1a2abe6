/** What is known about the states, table rows and symbols of the shipped tables.  Positions and keys are those of
    module Packed; actions below YY_MIN_REDUCE stand for the state they lead to. */
module SqliteCertificate {
  import opened SqliteTables

  function ItemOf0(t: int): int {
    if t < 15 then
     if t < 7 then
      if t < 3 then
       if t < 1 then 0 else if t < 2 then 3059 else 4481
      else
       if t < 5 then if t < 4 then 2401 else 1395 else if t < 6 then 1636 else 3313
     else
      if t < 11 then
       if t < 9 then if t < 8 then 2595 else 3635 else if t < 10 then 1474 else 2561
      else
       if t < 13 then if t < 12 then 1939 else 4053 else if t < 14 then 3337 else 1026
    else
     if t < 22 then
      if t < 18 then
       if t < 16 then 1011 else if t < 17 then 1378 else 2034
      else
       if t < 20 then if t < 19 then 1922 else 3137 else if t < 21 then 3556 else 3540
     else
      if t < 26 then
       if t < 24 then if t < 23 then 4610 else 1281 else if t < 25 then 3636 else 1650
      else
       if t < 28 then if t < 27 then 2098 else 4051 else if t < 29 then 611 else 611
  }

  function ItemOf1(t: int): int {
    if t < 45 then
     if t < 37 then
      if t < 33 then
       if t < 31 then 499 else if t < 32 then 2644 else 2402
      else
       if t < 35 then if t < 34 then 3170 else 3155 else if t < 36 then 2579 else 4067
     else
      if t < 41 then
       if t < 39 then if t < 38 then 4098 else 2261 else if t < 40 then 2243 else 2231
      else
       if t < 43 then if t < 42 then 2213 else 3794 else if t < 44 then 1794 else 2178
    else
     if t < 52 then
      if t < 48 then
       if t < 46 then 2066 else if t < 47 then 2132 else 3267
      else
       if t < 50 then if t < 49 then 3172 else 3186 else if t < 51 then 3157 else 2561
     else
      if t < 56 then
       if t < 54 then if t < 53 then 2561 else 3011 else if t < 55 then 2116 else 2675
      else
       if t < 58 then if t < 57 then 2914 else 2659 else if t < 59 then 1473 else 4066
  }

  function ItemOf2(t: int): int {
    if t < 75 then
     if t < 67 then
      if t < 63 then
       if t < 61 then 4097 else if t < 62 then 4052 else 4050
      else
       if t < 65 then if t < 64 then 2260 else 2242 else if t < 66 then 2230 else 2212
     else
      if t < 71 then
       if t < 69 then if t < 68 then 3793 else 1042 else if t < 70 then 610 else 2643
      else
       if t < 73 then if t < 72 then 1793 else 2177 else if t < 74 then 2065 else 1938
    else
     if t < 82 then
      if t < 78 then
       if t < 76 then 2131 else if t < 77 then 2899 else 3266
      else
       if t < 80 then if t < 79 then 3171 else 3169 else if t < 81 then 3185 else 3156
     else
      if t < 86 then
       if t < 84 then if t < 83 then 3154 else 2961 else if t < 85 then 2945 else 2929
      else
       if t < 88 then if t < 87 then 2913 else 2578 else if t < 89 then 3012 else 3010
  }

  function ItemOf3(t: int): int {
    if t < 105 then
     if t < 97 then
      if t < 93 then
       if t < 91 then 2882 else if t < 92 then 2836 else 2818
      else
       if t < 95 then if t < 94 then 2770 else 2754 else if t < 96 then 2738 else 2722
     else
      if t < 101 then
       if t < 99 then if t < 98 then 2706 else 2690 else if t < 100 then 2674 else 2658
      else
       if t < 103 then if t < 102 then 2115 else 2097 else if t < 104 then 498 else 2819
    else
     if t < 112 then
      if t < 108 then
       if t < 106 then 2900 else if t < 107 then 3013 else 2883
      else
       if t < 110 then if t < 109 then 2837 else 2707 else if t < 111 then 2691 else 2723
     else
      if t < 116 then
       if t < 114 then if t < 113 then 2739 else 4178 else if t < 115 then 225 else 1065
      else
       if t < 118 then if t < 117 then 436 else 418 else if t < 119 then 321 else 2755
  }

  function ItemOf4(t: int): int {
    if t < 135 then
     if t < 127 then
      if t < 123 then
       if t < 121 then 1281 else if t < 122 then 2771 else 2962
      else
       if t < 125 then if t < 124 then 2946 else 2930 else if t < 126 then 4199 else 4626
     else
      if t < 131 then
       if t < 129 then if t < 128 then 4612 else 2198 else if t < 130 then 3893 else 1137
      else
       if t < 133 then if t < 132 then 1106 else 4353 else if t < 134 then 5217 else 5235
    else
     if t < 142 then
      if t < 138 then
       if t < 136 then 4197 else if t < 137 then 2275 else 2195
      else
       if t < 140 then if t < 139 then 2147 else 4035 else if t < 141 then 3475 else 1251
     else
      if t < 146 then
       if t < 144 then if t < 143 then 1187 else 3922 else if t < 145 then 2353 else 3906
      else
       if t < 148 then if t < 147 then 2257 else 2227 else if t < 149 then 3890 else 3762
  }

  function ItemOf5(t: int): int {
    if t < 165 then
     if t < 157 then
      if t < 153 then
       if t < 151 then 3656 else if t < 152 then 1059 else 1874
      else
       if t < 155 then if t < 154 then 4370 else 3393 else if t < 156 then 4417 else 2277
     else
      if t < 161 then
       if t < 159 then if t < 158 then 385 else 2580 else if t < 160 then 1298 else 3908
      else
       if t < 163 then if t < 162 then 1240 else 337 else if t < 164 then 4388 else 4406
    else
     if t < 172 then
      if t < 168 then
       if t < 166 then 3122 else if t < 167 then 4242 else 1569
      else
       if t < 170 then if t < 169 then 1362 else 481 else if t < 171 then 530 else 514
     else
      if t < 176 then
       if t < 174 then if t < 173 then 2210 else 4818 else if t < 175 then 1507 else 1617
      else
       if t < 178 then if t < 177 then 1762 else 1745 else if t < 179 then 3058 else 4181
  }

  function ItemOf6(t: int): int {
    if t < 195 then
     if t < 187 then
      if t < 183 then
       if t < 181 then 4145 else if t < 182 then 4113 else 3521
      else
       if t < 185 then if t < 184 then 3489 else 4263 else if t < 186 then 4260 else 3858
     else
      if t < 191 then
       if t < 189 then if t < 188 then 3842 else 3335 else if t < 190 then 3332 else 3651
      else
       if t < 193 then if t < 192 then 1236 else 228 else if t < 194 then 1062 else 993
    else
     if t < 202 then
      if t < 198 then
       if t < 196 then 786 else if t < 197 then 770 else 754
      else
       if t < 200 then if t < 199 then 737 else 625 else if t < 201 then 1667 else 1842
     else
      if t < 206 then
       if t < 204 then if t < 203 then 2370 else 1521 else if t < 205 then 1619 else 1697
      else
       if t < 208 then if t < 207 then 3972 else 3954 else if t < 209 then 3410 else 4402
  }

  function ItemOf7(t: int): int {
    if t < 225 then
     if t < 217 then
      if t < 213 then
       if t < 211 then 2484 else if t < 212 then 2466 else 465
      else
       if t < 215 then if t < 214 then 369 else 194 else if t < 216 then 177 else 212
     else
      if t < 221 then
       if t < 219 then if t < 218 then 4529 else 3654 else if t < 220 then 3653 else 1652
      else
       if t < 223 then if t < 222 then 1668 else 1638 else if t < 224 then 1570 else 1282
    else
     if t < 232 then
      if t < 228 then
       if t < 226 then 2594 else if t < 227 then 49 else 2199
      else
       if t < 230 then if t < 229 then 2196 else 2148 else if t < 231 then 3923 else 3894
     else
      if t < 236 then
       if t < 234 then if t < 233 then 3891 else 1012 else if t < 235 then 4802 else 628
      else
       if t < 238 then if t < 237 then 578 else 1620 else if t < 239 then 3139 else 3426
  }

  function ItemOf8(t: int): int {
    if t < 255 then
     if t < 247 then
      if t < 243 then
       if t < 241 then 3412 else if t < 242 then 1363 else 1361
      else
       if t < 245 then if t < 244 then 4593 else 4196 else if t < 246 then 4162 else 4130
     else
      if t < 251 then
       if t < 249 then if t < 248 then 4065 else 4049 else if t < 250 then 3522 else 2276
      else
       if t < 253 then if t < 252 then 2201 else 2200 else if t < 254 then 2194 else 2151
    else
     if t < 262 then
      if t < 258 then
       if t < 256 then 2150 else if t < 257 then 2149 else 4034
      else
       if t < 260 then if t < 259 then 3474 else 1250 else if t < 261 then 1186 else 4261
     else
      if t < 266 then
       if t < 264 then if t < 263 then 4259 else 3924 else if t < 265 then 3907 else 3889
      else
       if t < 268 then if t < 267 then 2305 else 3339 else if t < 269 then 3333 else 3331
  }

  function ItemOf9(t: int): int {
    if t < 285 then
     if t < 277 then
      if t < 273 then
       if t < 271 then 3658 else if t < 272 then 3657 else 1713
      else
       if t < 275 then if t < 274 then 3652 else 3650 else if t < 276 then 1238 else 1237
     else
      if t < 281 then
       if t < 279 then if t < 278 then 1235 else 229 else if t < 280 then 227 else 1063
      else
       if t < 283 then if t < 282 then 1044 else 1028 else if t < 284 then 1014 else 897
    else
     if t < 292 then
      if t < 288 then
       if t < 286 then 626 else if t < 287 then 593 else 580
      else
       if t < 290 then if t < 289 then 579 else 882 else if t < 291 then 562 else 4785
     else
      if t < 296 then
       if t < 294 then if t < 293 then 1654 else 1653 else if t < 295 then 1670 else 1669
      else
       if t < 298 then if t < 297 then 1640 else 1639 else if t < 299 then 1622 else 1621
  }

  function ItemOf10(t: int): int {
    if t < 315 then
     if t < 307 then
      if t < 303 then
       if t < 301 then 1618 else if t < 302 then 3108 else 3107
      else
       if t < 305 then if t < 304 then 3138 else 4385 else if t < 306 then 3425 else 3411
     else
      if t < 311 then
       if t < 309 then if t < 308 then 4403 else 1368 else if t < 310 then 1367 else 1366
      else
       if t < 313 then if t < 312 then 1365 else 1364 else if t < 314 then 324 else 322
    else
     if t < 322 then
      if t < 318 then
       if t < 316 then 193 else if t < 317 then 211 else 161
      else
       if t < 320 then if t < 319 then 145 else 129 else if t < 321 then 50 else 5282
     else
      if t < 326 then
       if t < 324 then if t < 323 then 4305 else 5234 else if t < 325 then 4198 else 4625
      else
       if t < 328 then if t < 327 then 1064 else 627 else if t < 329 then 4611 else 2866
  }

  function ItemOf11(t: int): int {
    if t < 345 then
     if t < 337 then
      if t < 333 then
       if t < 331 then 1185 else if t < 332 then 5283 else 4306
      else
       if t < 335 then if t < 334 then 226 else 753 else if t < 336 then 417 else 4243
     else
      if t < 341 then
       if t < 339 then if t < 338 then 3523 else 2354 else if t < 340 then 2258 else 2228
      else
       if t < 343 then if t < 342 then 3338 else 1060 else if t < 344 then 1027 else 657
    else
     if t < 352 then
      if t < 348 then
       if t < 346 then 801 else if t < 347 then 929 else 561
      else
       if t < 350 then if t < 349 then 1379 else 1875 else if t < 351 then 3457 else 3394
     else
      if t < 356 then
       if t < 354 then if t < 353 then 3617 else 3601 else if t < 355 then 419 else 2562
      else
       if t < 358 then if t < 357 then 2433 else 18 else if t < 359 then 1 else 4225
  }

  function ItemOf12(t: int): int {
    if t < 375 then
     if t < 367 then
      if t < 363 then
       if t < 361 then 4195 else if t < 362 then 4180 else 4179
      else
       if t < 365 then if t < 364 then 4177 else 3589 else if t < 366 then 3557 else 2294
     else
      if t < 371 then
       if t < 369 then if t < 368 then 2274 else 2197 else if t < 370 then 2146 else 1201
      else
       if t < 373 then if t < 372 then 4262 else 4258 else if t < 374 then 3825 else 3921
    else
     if t < 382 then
      if t < 378 then
       if t < 376 then 3905 else if t < 377 then 2259 else 2241
      else
       if t < 380 then if t < 379 then 2229 else 2211 else if t < 381 then 3892 else 3873
     else
      if t < 386 then
       if t < 384 then if t < 383 then 3857 else 3841 else if t < 385 then 3810 else 3634
      else
       if t < 388 then if t < 387 then 3336 else 3334 else if t < 389 then 3330 else 3697
  }

  function ItemOf13(t: int): int {
    if t < 405 then
     if t < 397 then
      if t < 393 then
       if t < 391 then 3763 else if t < 392 then 3745 else 5106
      else
       if t < 395 then if t < 394 then 5105 else 3655 else if t < 396 then 1239 else 274
     else
      if t < 401 then
       if t < 399 then if t < 398 then 273 else 881 else if t < 400 then 1061 else 1058
      else
       if t < 403 then if t < 402 then 1057 else 1041 else if t < 404 then 1025 else 1013
    else
     if t < 412 then
      if t < 408 then
       if t < 406 then 1010 else if t < 407 then 1009 else 865
      else
       if t < 410 then if t < 409 then 609 else 577 else if t < 411 then 1105 else 2611
     else
      if t < 416 then
       if t < 414 then if t < 413 then 2596 else 3074 else if t < 415 then 2642 else 1313
      else
       if t < 418 then if t < 417 then 1377 else 1396 else if t < 419 then 1394 else 1393
  }

  function ItemOf14(t: int): int {
    if t < 435 then
     if t < 427 then
      if t < 423 then
       if t < 421 then 1506 else if t < 422 then 1651 else 1637
      else
       if t < 425 then if t < 424 then 1857 else 1841 else if t < 426 then 1873 else 1779
     else
      if t < 431 then
       if t < 429 then if t < 428 then 2035 else 2033 else if t < 430 then 1923 else 1921
      else
       if t < 433 then if t < 432 then 3314 else 3265 else if t < 434 then 3092 else 3060
    else
     if t < 442 then
      if t < 438 then
       if t < 436 then 3973 else if t < 437 then 3971 else 3955
      else
       if t < 440 then if t < 439 then 3953 else 3140 else if t < 441 then 4389 else 4387
     else
      if t < 446 then
       if t < 444 then if t < 443 then 4386 else 4371 else if t < 445 then 4407 else 4405
      else
       if t < 448 then if t < 447 then 4404 else 4354 else if t < 449 then 3123 else 3121
  }

  function ItemOf15(t: int): int {
    if t < 677 then
     if t < 457 then
      if t < 453 then
       if t < 451 then 2581 else if t < 452 then 437 else 2577
      else
       if t < 455 then if t < 454 then 2467 else 2465 else if t < 456 then 2449 else 2513
     else
      if t < 673 then
       if t < 459 then if t < 458 then 323 else 162 else if t < 672 then 4482 else 1
      else
       if t < 675 then if t < 674 then 19 else 33 else if t < 676 then 51 else 64
    else
     if t < 684 then
      if t < 680 then
       if t < 678 then 81 else if t < 679 then 97 else 113
      else
       if t < 682 then if t < 681 then 130 else 146 else if t < 683 then 162 else 178
     else
      if t < 688 then
       if t < 686 then if t < 685 then 195 else 213 else if t < 687 then 230 else 241
      else
       if t < 690 then if t < 689 then 256 else 275 else if t < 691 then 289 else 304
  }

  function ItemOf16(t: int): int {
    if t < 707 then
     if t < 699 then
      if t < 695 then
       if t < 693 then 325 else if t < 694 then 338 else 352
      else
       if t < 697 then if t < 696 then 370 else 386 else if t < 698 then 400 else 420
     else
      if t < 703 then
       if t < 701 then if t < 700 then 438 else 450 else if t < 702 then 466 else 482
      else
       if t < 705 then if t < 704 then 500 else 515 else if t < 706 then 531 else 546
    else
     if t < 714 then
      if t < 710 then
       if t < 708 then 563 else if t < 709 then 581 else 594
      else
       if t < 712 then if t < 711 then 612 else 628 else if t < 713 then 641 else 658
     else
      if t < 718 then
       if t < 716 then if t < 715 then 672 else 689 else if t < 717 then 704 else 722
      else
       if t < 720 then if t < 719 then 738 else 755 else if t < 721 then 771 else 787
  }

  function ItemOf17(t: int): int {
    if t < 737 then
     if t < 729 then
      if t < 725 then
       if t < 723 then 802 else if t < 724 then 818 else 833
      else
       if t < 727 then if t < 726 then 849 else 866 else if t < 728 then 883 else 898
     else
      if t < 733 then
       if t < 731 then if t < 730 then 912 else 930 else if t < 732 then 946 else 960
      else
       if t < 735 then if t < 734 then 977 else 994 else if t < 736 then 1015 else 1029
    else
     if t < 744 then
      if t < 740 then
       if t < 738 then 1045 else if t < 739 then 1066 else 1072
      else
       if t < 742 then if t < 741 then 1088 else 1107 else if t < 743 then 1120 else 1138
     else
      if t < 748 then
       if t < 746 then if t < 745 then 1153 else 1169 else if t < 747 then 1188 else 1202
      else
       if t < 750 then if t < 749 then 1216 else 1241 else if t < 751 then 1252 else 1265
  }

  function ItemOf18(t: int): int {
    if t < 767 then
     if t < 759 then
      if t < 755 then
       if t < 753 then 1282 else if t < 754 then 1299 else 1313
      else
       if t < 757 then if t < 756 then 1330 else 1345 else if t < 758 then 1369 else 1380
     else
      if t < 763 then
       if t < 761 then if t < 760 then 1397 else 1409 else if t < 762 then 1425 else 1440
      else
       if t < 765 then if t < 764 then 1456 else 1475 else if t < 766 then 1490 else 1508
    else
     if t < 774 then
      if t < 770 then
       if t < 768 then 1522 else if t < 769 then 1536 else 1552
      else
       if t < 772 then if t < 771 then 1570 else 1586 else if t < 773 then 1600 else 1623
     else
      if t < 778 then
       if t < 776 then if t < 775 then 1641 else 1655 else if t < 777 then 1671 else 1680
      else
       if t < 780 then if t < 779 then 1698 else 1714 else if t < 781 then 1729 else 1746
  }

  function ItemOf19(t: int): int {
    if t < 797 then
     if t < 789 then
      if t < 785 then
       if t < 783 then 1763 else if t < 784 then 1780 else 1794
      else
       if t < 787 then if t < 786 then 1808 else 1824 else if t < 788 then 1843 else 1858
     else
      if t < 793 then
       if t < 791 then if t < 790 then 1876 else 1888 else if t < 792 then 1904 else 1923
      else
       if t < 795 then if t < 794 then 1940 else 1954 else if t < 796 then 1969 else 1985
    else
     if t < 804 then
      if t < 800 then
       if t < 798 then 2000 else if t < 799 then 2016 else 2035
      else
       if t < 802 then if t < 801 then 2048 else 2066 else if t < 803 then 2080 else 2098
     else
      if t < 808 then
       if t < 806 then if t < 805 then 2116 else 2132 else if t < 807 then 2152 else 2160
      else
       if t < 810 then if t < 809 then 2178 else 2202 else if t < 811 then 2213 else 2231
  }

  function ItemOf20(t: int): int {
    if t < 827 then
     if t < 819 then
      if t < 815 then
       if t < 813 then 2243 else if t < 814 then 2261 else 2278
      else
       if t < 817 then if t < 816 then 2295 else 2306 else if t < 818 then 2321 else 2336
     else
      if t < 823 then
       if t < 821 then if t < 820 then 2355 else 2371 else if t < 822 then 2385 else 2403
      else
       if t < 825 then if t < 824 then 2417 else 2433 else if t < 826 then 2449 else 2467
    else
     if t < 834 then
      if t < 830 then
       if t < 828 then 2485 else if t < 829 then 2497 else 2513
      else
       if t < 832 then if t < 831 then 2529 else 2545 else if t < 833 then 2563 else 2582
     else
      if t < 838 then
       if t < 836 then if t < 835 then 2597 else 2612 else if t < 837 then 2625 else 2645
      else
       if t < 840 then if t < 839 then 2659 else 2675 else if t < 841 then 2691 else 2707
  }

  function ItemOf21(t: int): int {
    if t < 857 then
     if t < 849 then
      if t < 845 then
       if t < 843 then 2723 else if t < 844 then 2739 else 2755
      else
       if t < 847 then if t < 846 then 2771 else 2785 else if t < 848 then 2802 else 2819
     else
      if t < 853 then
       if t < 851 then if t < 850 then 2837 else 2850 else if t < 852 then 2867 else 2883
      else
       if t < 855 then if t < 854 then 2900 else 2914 else if t < 856 then 2930 else 2946
    else
     if t < 864 then
      if t < 860 then
       if t < 858 then 2962 else if t < 859 then 2977 else 2994
      else
       if t < 862 then if t < 861 then 3013 else 3025 else if t < 863 then 3042 else 3061
     else
      if t < 868 then
       if t < 866 then if t < 865 then 3075 else 3093 else if t < 867 then 3109 else 3124
      else
       if t < 870 then if t < 869 then 3141 else 3157 else if t < 871 then 3172 else 3186
  }

  function ItemOf22(t: int): int {
    if t < 887 then
     if t < 879 then
      if t < 875 then
       if t < 873 then 3200 else if t < 874 then 3217 else 3232
      else
       if t < 877 then if t < 876 then 3248 else 3267 else if t < 878 then 3281 else 3296
     else
      if t < 883 then
       if t < 881 then if t < 880 then 3315 else 3340 else if t < 882 then 3345 else 3360
      else
       if t < 885 then if t < 884 then 3376 else 3395 else if t < 886 then 3413 else 3427
    else
     if t < 894 then
      if t < 890 then
       if t < 888 then 3440 else if t < 889 then 3458 else 3476
      else
       if t < 892 then if t < 891 then 3489 else 3506 else if t < 893 then 3523 else 3541
     else
      if t < 898 then
       if t < 896 then if t < 895 then 3558 else 3573 else if t < 897 then 3590 else 3602
      else
       if t < 900 then if t < 899 then 3618 else 3637 else if t < 901 then 3659 else 3665
  }

  function ItemOf23(t: int): int {
    if t < 917 then
     if t < 909 then
      if t < 905 then
       if t < 903 then 3681 else if t < 904 then 3698 else 3712
      else
       if t < 907 then if t < 906 then 3729 else 3745 else if t < 908 then 3763 else 3776
     else
      if t < 913 then
       if t < 911 then if t < 910 then 3794 else 3811 else if t < 912 then 3826 else 3843
      else
       if t < 915 then if t < 914 then 3859 else 3874 else if t < 916 then 3895 else 3909
    else
     if t < 924 then
      if t < 920 then
       if t < 918 then 3925 else if t < 919 then 3937 else 3956
      else
       if t < 922 then if t < 921 then 3974 else 3985 else if t < 923 then 4001 else 4017
     else
      if t < 928 then
       if t < 926 then if t < 925 then 4036 else 4054 else if t < 927 then 4067 else 4080
      else
       if t < 930 then if t < 929 then 4098 else 4113 else if t < 931 then 4131 else 4145
  }

  function ItemOf24(t: int): int {
    if t < 947 then
     if t < 939 then
      if t < 935 then
       if t < 933 then 4163 else if t < 934 then 4182 else 4199
      else
       if t < 937 then if t < 936 then 4209 else 4225 else if t < 938 then 4244 else 4264
     else
      if t < 943 then
       if t < 941 then if t < 940 then 4272 else 4289 else if t < 942 then 4307 else 4321
      else
       if t < 945 then if t < 944 then 4336 else 4354 else if t < 946 then 4371 else 4390
    else
     if t < 954 then
      if t < 950 then
       if t < 948 then 4408 else if t < 949 then 4417 else 4434
      else
       if t < 952 then if t < 951 then 4449 else 4465 else if t < 953 then 4483 else 4496
     else
      if t < 958 then
       if t < 956 then if t < 955 then 4512 else 4529 else if t < 957 then 4546 else 4561
      else
       if t < 960 then if t < 959 then 4576 else 4594 else if t < 961 then 4612 else 4626
  }

  function ItemOf25(t: int): int {
    if t < 977 then
     if t < 969 then
      if t < 965 then
       if t < 963 then 4641 else if t < 964 then 4657 else 4673
      else
       if t < 967 then if t < 966 then 4689 else 4705 else if t < 968 then 4721 else 4737
     else
      if t < 973 then
       if t < 971 then if t < 970 then 4754 else 4768 else if t < 972 then 4786 else 4802
      else
       if t < 975 then if t < 974 then 4819 else 4833 else if t < 976 then 4848 else 4865
    else
     if t < 984 then
      if t < 980 then
       if t < 978 then 4881 else if t < 979 then 4897 else 4913
      else
       if t < 982 then if t < 981 then 4930 else 4945 else if t < 983 then 4961 else 4977
     else
      if t < 988 then
       if t < 986 then if t < 985 then 4993 else 5009 else if t < 987 then 5025 else 5041
      else
       if t < 990 then if t < 989 then 5057 else 5073 else if t < 991 then 5088 else 5107
  }

  function ItemOf26(t: int): int {
    if t < 998 then
     if t < 995 then
      if t < 993 then 5121 else if t < 994 then 5136 else 5153
     else
      if t < 996 then 5168 else if t < 997 then 5184 else 5201
    else
     if t < 1001 then
      if t < 999 then 5217 else if t < 1000 then 5235 else 5250
     else
      if t < 1002 then 5264 else if t < 1003 then 5284 else 5298
  }

  /** A position that says what is on the stack when action t leads to a state: the first dot symbols of a rule. */
  function ItemOf(t: int): int {
    if t < 390 then
     if t < 180 then
      if t < 90 then
       if t < 30 then ItemOf0(t) else if t < 60 then ItemOf1(t) else ItemOf2(t)
      else
       if t < 120 then ItemOf3(t) else if t < 150 then ItemOf4(t) else ItemOf5(t)
     else
      if t < 270 then
       if t < 210 then ItemOf6(t) else if t < 240 then ItemOf7(t) else ItemOf8(t)
      else
       if t < 330 then
        if t < 300 then ItemOf9(t) else ItemOf10(t)
       else
        if t < 360 then ItemOf11(t) else ItemOf12(t)
    else
     if t < 812 then
      if t < 692 then
       if t < 420 then ItemOf13(t) else if t < 450 then ItemOf14(t) else ItemOf15(t)
      else
       if t < 752 then
        if t < 722 then ItemOf16(t) else ItemOf17(t)
       else
        if t < 782 then ItemOf18(t) else ItemOf19(t)
     else
      if t < 902 then
       if t < 842 then ItemOf20(t) else if t < 872 then ItemOf21(t) else ItemOf22(t)
      else
       if t < 962 then
        if t < 932 then ItemOf23(t) else ItemOf24(t)
       else
        if t < 992 then ItemOf25(t) else ItemOf26(t)
  }

  function MainKey0(t: int): int {
    if t < 15 then
     if t < 7 then
      if t < 3 then
       if t < 1 then 0 else if t < 2 then 941 else 402
      else
       if t < 5 then if t < 4 then 429 else 974 else if t < 6 then 1235 else 480
     else
      if t < 11 then
       if t < 9 then if t < 8 then 941 else 917 else if t < 10 then 711 else 429
      else
       if t < 13 then if t < 12 then 954 else 1429 else if t < 14 then 2453 else 697
    else
     if t < 22 then
      if t < 18 then
       if t < 16 then 953 else if t < 17 then 718 else 714
      else
       if t < 20 then if t < 19 then 716 else 429 else if t < 21 then 1173 else 1173
     else
      if t < 26 then
       if t < 24 then if t < 23 then 672 else 419 else if t < 25 then 1173 else 723
      else
       if t < 28 then if t < 27 then 717 else 917 else if t < 29 then 429 else 939
  }

  function MainKey1(t: int): int {
    if t < 45 then
     if t < 37 then
      if t < 33 then
       if t < 31 then 939 else if t < 32 then 1197 else 685
      else
       if t < 35 then if t < 34 then 738 else 994 else if t < 36 then 941 else 917
     else
      if t < 41 then
       if t < 39 then if t < 38 then 753 else 1498 else if t < 40 then 986 else 2010
      else
       if t < 43 then if t < 42 then 1498 else 748 else if t < 44 then 727 else 713
    else
     if t < 52 then
      if t < 48 then
       if t < 46 then 715 else if t < 47 then 1229 else 975
      else
       if t < 50 then if t < 49 then 1250 else 739 else if t < 51 then 1506 else 429
     else
      if t < 56 then
       if t < 54 then if t < 53 then 429 else 941 else if t < 55 then 1229 else 941
      else
       if t < 58 then if t < 57 then 685 else 941 else if t < 59 then 455 else 661
  }

  function MainKey2(t: int): int {
    if t < 75 then
     if t < 67 then
      if t < 63 then
       if t < 61 then 497 else if t < 62 then 1173 else 661
      else
       if t < 65 then if t < 64 then 1242 else 730 else if t < 66 then 1754 else 1242
     else
      if t < 71 then
       if t < 69 then if t < 68 then 492 else 697 else if t < 70 then 683 else 941
      else
       if t < 73 then if t < 72 then 471 else 457 else if t < 74 then 459 else 698
    else
     if t < 82 then
      if t < 78 then
       if t < 76 then 973 else if t < 77 then 941 else 719
      else
       if t < 80 then if t < 79 then 994 else 482 else if t < 81 then 483 else 1250
     else
      if t < 86 then
       if t < 84 then if t < 83 then 738 else 429 else if t < 85 then 429 else 429
      else
       if t < 88 then if t < 87 then 429 else 685 else if t < 89 then 1197 else 685
  }

  function MainKey3(t: int): int {
    if t < 105 then
     if t < 97 then
      if t < 93 then
       if t < 91 then 685 else if t < 92 then 1197 else 685
      else
       if t < 95 then if t < 94 then 685 else 685 else if t < 96 then 685 else 685
     else
      if t < 101 then
       if t < 99 then if t < 98 then 685 else 685 else if t < 100 then 685 else 685
      else
       if t < 103 then if t < 102 then 973 else 461 else if t < 104 then 683 else 941
    else
     if t < 112 then
      if t < 108 then
       if t < 106 then 1197 else if t < 107 then 1453 else 941
      else
       if t < 110 then if t < 109 then 1453 else 941 else if t < 111 then 941 else 941
     else
      if t < 116 then
       if t < 114 then if t < 113 then 941 else 661 else if t < 115 then 410 else 2489
      else
       if t < 118 then if t < 117 then 1190 else 678 else if t < 119 then 411 else 941
  }

  function MainKey4(t: int): int {
    if t < 135 then
     if t < 127 then
      if t < 123 then
       if t < 121 then 419 else if t < 122 then 941 else 685
      else
       if t < 125 then if t < 124 then 685 else 685 else if t < 126 then 1941 else 672
     else
      if t < 131 then
       if t < 129 then if t < 128 then 1184 else 1685 else if t < 130 then 1517 else 445
      else
       if t < 133 then if t < 132 then 686 else 452 else if t < 134 then 501 else 1013
    else
     if t < 142 then
      if t < 138 then
       if t < 136 then 1429 else if t < 137 then 917 else 917
      else
       if t < 140 then if t < 139 then 917 else 917 else if t < 141 then 917 else 917
     else
      if t < 146 then
       if t < 144 then if t < 143 then 917 else 749 else if t < 145 then 476 else 749
      else
       if t < 148 then if t < 147 then 474 else 986 else if t < 149 then 749 else 746
  }

  function MainKey5(t: int): int {
    if t < 165 then
     if t < 157 then
      if t < 153 then
       if t < 151 then 2279 else if t < 152 then 953 else 728
      else
       if t < 155 then if t < 154 then 708 else 433 else if t < 156 then 400 else 1429
     else
      if t < 161 then
       if t < 159 then if t < 158 then 420 else 1197 else if t < 160 then 706 else 1261
      else
       if t < 163 then if t < 162 then 2197 else 411 else if t < 164 then 1274 else 1786
    else
     if t < 172 then
      if t < 168 then
       if t < 166 then 685 else if t < 167 then 661 else 456
      else
       if t < 170 then if t < 169 then 707 else 427 else if t < 171 then 683 else 683
     else
      if t < 176 then
       if t < 174 then if t < 173 then 730 else 695 else if t < 175 then 967 else 467
      else
       if t < 178 then if t < 177 then 725 else 469 else if t < 179 then 685 else 1429
  }

  function MainKey6(t: int): int {
    if t < 195 then
     if t < 187 then
      if t < 183 then
       if t < 181 then 405 else if t < 182 then 405 else 405
      else
       if t < 185 then if t < 184 then 405 else 2036 else if t < 186 then 1268 else 751
     else
      if t < 191 then
       if t < 189 then if t < 188 then 750 else 1941 else if t < 190 then 1173 else 999
      else
       if t < 193 then if t < 192 then 1173 else 1178 else if t < 194 then 1721 else 441
    else
     if t < 202 then
      if t < 198 then
       if t < 196 then 692 else if t < 197 then 692 else 692
      else
       if t < 200 then if t < 199 then 436 else 427 else if t < 201 then 979 else 726
     else
      if t < 206 then
       if t < 204 then if t < 203 then 729 else 466 else if t < 205 then 979 else 415
      else
       if t < 208 then if t < 207 then 1197 else 685 else if t < 209 then 699 else 762
  }

  function MainKey7(t: int): int {
    if t < 225 then
     if t < 217 then
      if t < 213 then
       if t < 211 then 1197 else if t < 212 then 685 else 427
      else
       if t < 215 then if t < 214 then 418 else 661 else if t < 216 then 405 else 1173
     else
      if t < 221 then
       if t < 219 then if t < 218 then 407 else 1767 else if t < 220 then 1511 else 1235
      else
       if t < 223 then if t < 222 then 1235 else 1747 else if t < 224 then 712 else 675
    else
     if t < 232 then
      if t < 228 then
       if t < 226 then 685 else if t < 227 then 405 else 1941
      else
       if t < 230 then if t < 229 then 1173 else 1173 else if t < 231 then 1005 else 1773
     else
      if t < 236 then
       if t < 234 then if t < 233 then 1005 else 1209 else if t < 235 then 673 else 1195
      else
       if t < 238 then if t < 237 then 683 else 1235 else if t < 239 then 941 else 699
  }

  function MainKey8(t: int): int {
    if t < 255 then
     if t < 247 then
      if t < 243 then
       if t < 241 then 1211 else if t < 242 then 963 else 451
      else
       if t < 245 then if t < 244 then 405 else 1173 else if t < 246 then 661 else 661
     else
      if t < 251 then
       if t < 249 then if t < 248 then 405 else 405 else if t < 250 then 661 else 1173
      else
       if t < 253 then if t < 252 then 2453 else 2197 else if t < 254 then 661 else 1941
    else
     if t < 262 then
      if t < 258 then
       if t < 256 then 1685 else if t < 257 then 1429 else 661
      else
       if t < 260 then if t < 259 then 661 else 661 else if t < 261 then 661 else 1524
     else
      if t < 266 then
       if t < 264 then if t < 263 then 1012 else 1261 else if t < 265 then 1005 else 493
      else
       if t < 268 then if t < 267 then 475 else 2965 else if t < 269 then 1429 else 917
  }

  function MainKey9(t: int): int {
    if t < 285 then
     if t < 277 then
      if t < 273 then
       if t < 271 then 2791 else if t < 272 then 2535 else 449
      else
       if t < 275 then if t < 274 then 1255 else 743 else if t < 276 then 1685 else 1429
     else
      if t < 281 then
       if t < 279 then if t < 278 then 917 else 1434 else if t < 280 then 922 else 1977
      else
       if t < 283 then if t < 282 then 1209 else 1209 else if t < 284 then 1721 else 435
    else
     if t < 292 then
      if t < 288 then
       if t < 286 then 683 else if t < 287 then 427 else 1195
      else
       if t < 290 then if t < 289 then 939 else 691 else if t < 291 then 683 else 427
     else
      if t < 296 then
       if t < 294 then if t < 293 then 1747 else 1491 else if t < 295 then 1747 else 1491
      else
       if t < 298 then if t < 297 then 2259 else 2003 else if t < 299 then 1747 else 1491
  }

  function MainKey10(t: int): int {
    if t < 315 then
     if t < 307 then
      if t < 303 then
       if t < 301 then 723 else if t < 302 then 1197 else 941
      else
       if t < 305 then if t < 304 then 685 else 506 else if t < 306 then 443 else 955
     else
      if t < 311 then
       if t < 309 then if t < 308 then 1018 else 2243 else if t < 310 then 1987 else 1731
      else
       if t < 313 then if t < 312 then 1475 else 1219 else if t < 314 then 1179 else 667
    else
     if t < 322 then
      if t < 318 then
       if t < 316 then 405 else if t < 317 then 917 else 405
      else
       if t < 320 then if t < 319 then 405 else 405 else if t < 321 then 661 else 761
     else
      if t < 326 then
       if t < 324 then if t < 323 then 503 else 757 else if t < 325 then 1685 else 416
      else
       if t < 328 then if t < 327 then 2233 else 939 else if t < 329 then 928 else 685
  }

  function MainKey11(t: int): int {
    if t < 345 then
     if t < 337 then
      if t < 333 then
       if t < 331 then 405 else if t < 332 then 1017 else 759
      else
       if t < 335 then if t < 334 then 666 else 436 else if t < 336 then 422 else 917
     else
      if t < 341 then
       if t < 339 then if t < 338 then 917 else 732 else if t < 340 then 730 else 1242
      else
       if t < 343 then if t < 342 then 2709 else 1209 else if t < 344 then 953 else 427
    else
     if t < 352 then
      if t < 348 then
       if t < 346 then 437 else if t < 347 then 438 else 427
      else
       if t < 350 then if t < 349 then 974 else 984 else if t < 351 then 485 else 689
     else
      if t < 356 then
       if t < 354 then if t < 353 then 426 else 425 else if t < 355 then 934 else 685
      else
       if t < 358 then if t < 357 then 429 else 659 else if t < 359 then 403 else 405
  }

  function MainKey12(t: int): int {
    if t < 375 then
     if t < 367 then
      if t < 363 then
       if t < 361 then 917 else if t < 362 then 1173 else 917
      else
       if t < 365 then if t < 364 then 405 else 1429 else if t < 366 then 1429 else 1685
     else
      if t < 371 then
       if t < 369 then if t < 368 then 661 else 1429 else if t < 370 then 661 else 448
      else
       if t < 373 then if t < 372 then 1780 else 756 else if t < 374 then 488 else 493
    else
     if t < 382 then
      if t < 378 then
       if t < 376 then 493 else if t < 377 then 986 else 474
      else
       if t < 380 then if t < 379 then 1498 else 986 else if t < 381 then 1261 else 495
     else
      if t < 386 then
       if t < 384 then if t < 383 then 495 else 494 else if t < 385 then 744 else 661
      else
       if t < 388 then if t < 387 then 2197 else 1685 else if t < 389 then 661 else 489
  }

  function MainKey13(t: int): int {
    if t < 405 then
     if t < 397 then
      if t < 393 then
       if t < 391 then 1002 else if t < 392 then 490 else 747
      else
       if t < 395 then if t < 394 then 491 else 2023 else if t < 396 then 1941 else 670
     else
      if t < 401 then
       if t < 399 then if t < 398 then 414 else 435 else if t < 400 then 1465 else 697
      else
       if t < 403 then if t < 402 then 441 else 441 else if t < 404 then 441 else 1465
    else
     if t < 412 then
      if t < 408 then
       if t < 406 then 697 else if t < 407 then 441 else 437
      else
       if t < 410 then if t < 409 then 427 else 427 else if t < 411 then 430 else 941
     else
      if t < 416 then
       if t < 414 then if t < 413 then 1197 else 685 else if t < 415 then 685 else 453
      else
       if t < 418 then if t < 417 then 462 else 1230 else if t < 419 then 718 else 462
  }

  function MainKey14(t: int): int {
    if t < 435 then
     if t < 427 then
      if t < 423 then
       if t < 421 then 711 else if t < 422 then 979 else 1491
      else
       if t < 425 then if t < 424 then 470 else 470 else if t < 426 then 472 else 981
     else
      if t < 431 then
       if t < 429 then if t < 428 then 970 else 458 else if t < 430 then 972 else 460
      else
       if t < 433 then if t < 432 then 736 else 463 else if t < 434 then 1197 else 1197
    else
     if t < 442 then
      if t < 438 then
       if t < 436 then 1453 else if t < 437 then 941 else 941
      else
       if t < 440 then if t < 439 then 429 else 1197 else if t < 441 then 1530 else 1018
     else
      if t < 446 then
       if t < 444 then if t < 443 then 762 else 964 else if t < 445 then 2042 else 1530
      else
       if t < 448 then if t < 447 then 1274 else 708 else if t < 449 then 941 else 429
  }

  function MainKey15(t: int): int {
    if t < 677 then
     if t < 457 then
      if t < 453 then
       if t < 451 then 1453 else if t < 452 then 1446 else 429
      else
       if t < 455 then if t < 454 then 941 else 429 else if t < 456 then 429 else 428
     else
      if t < 673 then
       if t < 459 then if t < 458 then 923 else 661 else if t < 672 then 658 else 403
      else
       if t < 675 then if t < 674 then 915 else 404 else if t < 676 then 917 else 0
    else
     if t < 684 then
      if t < 680 then
       if t < 678 then 406 else if t < 679 then 406 else 406
      else
       if t < 682 then if t < 681 then 661 else 661 else if t < 683 then 661 else 661
     else
      if t < 688 then
       if t < 686 then if t < 685 then 917 else 1429 else if t < 687 then 1690 else 412
      else
       if t < 690 then if t < 689 then 0 else 926 else if t < 691 then 413 else 0
  }

  function MainKey16(t: int): int {
    if t < 707 then
     if t < 699 then
      if t < 695 then
       if t < 693 then 1435 else if t < 694 then 667 else 0
      else
       if t < 697 then if t < 696 then 674 else 676 else if t < 698 then 0 else 1190
     else
      if t < 703 then
       if t < 701 then if t < 700 then 1702 else 679 else if t < 702 then 683 else 683
      else
       if t < 705 then if t < 704 then 1195 else 939 else if t < 706 then 939 else 683
    else
     if t < 714 then
      if t < 710 then
       if t < 708 then 939 else if t < 709 then 1451 else 683
      else
       if t < 712 then if t < 711 then 1195 else 1195 else if t < 713 then 427 else 683
     else
      if t < 718 then
       if t < 716 then if t < 715 then 0 else 432 else if t < 717 then 0 else 690
      else
       if t < 720 then if t < 719 then 692 else 948 else if t < 721 then 948 else 948
  }

  function MainKey17(t: int): int {
    if t < 737 then
     if t < 729 then
      if t < 725 then
       if t < 723 then 693 else if t < 724 then 693 else 437
      else
       if t < 727 then if t < 726 then 437 else 693 else if t < 728 then 947 else 691
     else
      if t < 733 then
       if t < 731 then if t < 730 then 0 else 694 else if t < 732 then 694 else 0
      else
       if t < 735 then if t < 734 then 440 else 697 else if t < 736 then 1977 else 1465
    else
     if t < 744 then
      if t < 740 then
       if t < 738 then 1465 else if t < 739 then 2745 else 0
      else
       if t < 742 then if t < 741 then 0 else 942 else if t < 743 then 0 else 701
     else
      if t < 748 then
       if t < 746 then if t < 745 then 446 else 446 else if t < 747 then 1173 else 704
      else
       if t < 750 then if t < 749 then 0 else 2453 else if t < 751 then 1173 else 405
  }

  function MainKey18(t: int): int {
    if t < 767 then
     if t < 759 then
      if t < 755 then
       if t < 753 then 675 else if t < 754 then 962 else 453
      else
       if t < 757 then if t < 756 then 709 else 453 else if t < 758 then 2499 else 1230
     else
      if t < 763 then
       if t < 761 then if t < 760 then 1486 else 454 else if t < 762 then 454 else 0
      else
       if t < 765 then if t < 764 then 0 else 967 else if t < 766 then 711 else 1223
    else
     if t < 774 then
      if t < 770 then
       if t < 768 then 722 else if t < 769 then 0 else 0
      else
       if t < 772 then if t < 771 then 712 else 724 else if t < 773 then 0 else 2003
     else
      if t < 778 then
       if t < 776 then if t < 775 then 2515 else 2003 else if t < 777 then 2003 else 0
      else
       if t < 780 then if t < 779 then 671 else 705 else if t < 781 then 469 else 725
  }

  function MainKey19(t: int): int {
    if t < 797 then
     if t < 789 then
      if t < 785 then
       if t < 783 then 981 else if t < 784 then 1237 else 727
      else
       if t < 787 then if t < 786 then 0 else 0 else if t < 788 then 982 else 726
     else
      if t < 793 then
       if t < 791 then if t < 790 then 1240 else 0 else if t < 792 then 0 else 972
      else
       if t < 795 then if t < 794 then 1210 else 698 else if t < 796 then 431 else 431
    else
     if t < 804 then
      if t < 800 then
       if t < 798 then 0 else if t < 799 then 0 else 970
      else
       if t < 802 then if t < 801 then 0 else 715 else if t < 803 then 0 else 717
     else
      if t < 808 then
       if t < 806 then if t < 805 then 1229 else 1229 else if t < 807 then 2197 else 0
      else
       if t < 810 then if t < 809 then 713 else 2709 else if t < 811 then 1498 else 2010
  }

  function MainKey20(t: int): int {
    if t < 827 then
     if t < 819 then
      if t < 815 then
       if t < 813 then 986 else if t < 814 then 1498 else 1685
      else
       if t < 817 then if t < 816 then 1941 else 731 else if t < 818 then 475 else 0
     else
      if t < 823 then
       if t < 821 then if t < 820 then 988 else 985 else if t < 822 then 473 else 941
      else
       if t < 825 then if t < 824 then 428 else 429 else if t < 826 then 429 else 941
    else
     if t < 834 then
      if t < 830 then
       if t < 828 then 1453 else if t < 829 then 428 else 428
      else
       if t < 832 then if t < 831 then 428 else 429 else if t < 833 then 941 else 1709
     else
      if t < 838 then
       if t < 836 then if t < 835 then 1453 else 1197 else if t < 837 then 428 else 1453
      else
       if t < 840 then if t < 839 then 941 else 941 else if t < 841 then 941 else 941
  }

  function MainKey21(t: int): int {
    if t < 857 then
     if t < 849 then
      if t < 845 then
       if t < 843 then 941 else if t < 844 then 941 else 941
      else
       if t < 847 then if t < 846 then 941 else 477 else if t < 848 then 733 else 941
     else
      if t < 853 then
       if t < 851 then if t < 850 then 1453 else 685 else if t < 852 then 941 else 941
      else
       if t < 855 then if t < 854 then 1197 else 685 else if t < 856 then 685 else 685
    else
     if t < 864 then
      if t < 860 then
       if t < 858 then 685 else if t < 859 then 478 else 734
      else
       if t < 862 then if t < 861 then 1453 else 479 else if t < 863 then 735 else 1453
     else
      if t < 868 then
       if t < 866 then if t < 865 then 941 else 1453 else if t < 867 then 1453 else 1197
      else
       if t < 870 then if t < 869 then 1453 else 1506 else if t < 871 then 1250 else 739
  }

  function MainKey22(t: int): int {
    if t < 887 then
     if t < 879 then
      if t < 875 then
       if t < 873 then 0 else if t < 874 then 481 else 0
      else
       if t < 877 then if t < 876 then 0 else 975 else if t < 878 then 463 else 0
     else
      if t < 883 then
       if t < 881 then if t < 880 then 992 else 3221 else if t < 882 then 484 else 0
      else
       if t < 885 then if t < 884 then 0 else 945 else if t < 886 then 1467 else 955
    else
     if t < 894 then
      if t < 890 then
       if t < 888 then 0 else if t < 889 then 741 else 1173
      else
       if t < 892 then if t < 891 then 405 else 661 else if t < 893 then 917 else 1429
     else
      if t < 898 then
       if t < 896 then if t < 895 then 1685 else 1429 else if t < 897 then 1685 else 681
      else
       if t < 900 then if t < 899 then 682 else 1429 else if t < 901 then 3047 else 489
  }

  function MainKey23(t: int): int {
    if t < 917 then
     if t < 909 then
      if t < 905 then
       if t < 903 then 489 else if t < 904 then 745 else 0
      else
       if t < 907 then if t < 906 then 490 else 490 else if t < 908 then 1002 else 0
     else
      if t < 913 then
       if t < 911 then if t < 910 then 748 else 1000 else if t < 912 then 744 else 1006
      else
       if t < 915 then if t < 914 then 1007 else 751 else if t < 916 then 2029 else 1517
    else
     if t < 924 then
      if t < 920 then
       if t < 918 then 1517 else if t < 919 then 493 else 1197
      else
       if t < 922 then if t < 921 then 1709 else 447 else if t < 923 then 447 else 447
     else
      if t < 928 then
       if t < 926 then if t < 925 then 1173 else 1685 else if t < 927 then 917 else 0
      else
       if t < 930 then if t < 929 then 753 else 405 else if t < 931 then 917 else 405
  }

  function MainKey24(t: int): int {
    if t < 947 then
     if t < 939 then
      if t < 935 then
       if t < 933 then 917 else if t < 934 then 1685 else 1941
      else
       if t < 937 then if t < 936 then 498 else 405 else if t < 938 then 1173 else 2292
     else
      if t < 943 then
       if t < 941 then if t < 940 then 0 else 503 else if t < 942 then 1015 else 504
      else
       if t < 945 then if t < 944 then 0 else 708 else if t < 946 then 964 else 1786
    else
     if t < 954 then
      if t < 950 then
       if t < 948 then 2298 else if t < 949 then 400 else 657
      else
       if t < 952 then if t < 951 then 401 else 402 else if t < 953 then 914 else 0
     else
      if t < 958 then
       if t < 956 then if t < 955 then 0 else 407 else if t < 957 then 663 else 409
      else
       if t < 960 then if t < 959 then 0 else 661 else if t < 961 then 1184 else 672
  }

  function MainKey25(t: int): int {
    if t < 977 then
     if t < 969 then
      if t < 965 then
       if t < 963 then 408 else if t < 964 then 408 else 408
      else
       if t < 967 then if t < 966 then 422 else 423 else if t < 968 then 424 else 424
     else
      if t < 973 then
       if t < 971 then if t < 970 then 677 else 0 else if t < 972 then 683 else 673
      else
       if t < 975 then if t < 974 then 951 else 439 else if t < 976 then 0 else 444
    else
     if t < 984 then
      if t < 980 then
       if t < 978 then 446 else if t < 979 then 450 else 451
      else
       if t < 982 then if t < 981 then 721 else 466 else if t < 983 then 429 else 464
     else
      if t < 988 then
       if t < 986 then if t < 985 then 486 else 486 else if t < 987 then 486 else 486
      else
       if t < 990 then if t < 989 then 486 else 425 else if t < 991 then 0 else 1003
  }

  function MainKey26(t: int): int {
    if t < 998 then
     if t < 995 then
      if t < 993 then 494 else if t < 994 then 0 else 496
     else
      if t < 996 then 0 else if t < 997 then 0 else 499
    else
     if t < 1001 then
      if t < 999 then 501 else if t < 1000 then 1013 else 758
     else
      if t < 1002 then 0 else if t < 1003 then 1273 else 761
  }

  /** The goto needed below that state: 256 * depth + symbol. */
  function MainKey(t: int): int {
    if t < 390 then
     if t < 180 then
      if t < 90 then
       if t < 30 then MainKey0(t) else if t < 60 then MainKey1(t) else MainKey2(t)
      else
       if t < 120 then MainKey3(t) else if t < 150 then MainKey4(t) else MainKey5(t)
     else
      if t < 270 then
       if t < 210 then MainKey6(t) else if t < 240 then MainKey7(t) else MainKey8(t)
      else
       if t < 330 then
        if t < 300 then MainKey9(t) else MainKey10(t)
       else
        if t < 360 then MainKey11(t) else MainKey12(t)
    else
     if t < 812 then
      if t < 692 then
       if t < 420 then MainKey13(t) else if t < 450 then MainKey14(t) else MainKey15(t)
      else
       if t < 752 then
        if t < 722 then MainKey16(t) else MainKey17(t)
       else
        if t < 782 then MainKey18(t) else MainKey19(t)
     else
      if t < 902 then
       if t < 842 then MainKey20(t) else if t < 872 then MainKey21(t) else MainKey22(t)
      else
       if t < 962 then
        if t < 932 then MainKey23(t) else MainKey24(t)
       else
        if t < 992 then MainKey25(t) else MainKey26(t)
  }

  function ExtraKey0(t: int, k: int): bool {
    if t < 51 then
     if t < 24 then
      if t < 11 then
       if t < 9 then false else if t < 10 then k == 429 else k == 442
      else
       if t < 22 then if t < 13 then k == 429 else false else if t < 23 then k == 417 else k == 405
     else
      if t < 29 then
       if t < 26 then if t < 25 then k == 488 else false else if t < 28 then k == 429 else k == 953
      else
       if t < 32 then
        if t < 31 then k == 429 else (k == 429 || k == 975)
       else
        if t < 33 then (k == 429 || k == 463) else k == 429
    else
     if t < 113 then
      if t < 58 then
       if t < 52 then k == 481 else if t < 53 then k == 463 else k == 429
      else
       if t < 71 then if t < 70 then false else k == 719 else if t < 104 then false else k == 429
     else
      if t < 119 then
       if t < 115 then
        if t < 114 then false else (k == 405 || k == 500)
       else
        if t < 116 then k == 434 else false
      else
       if t < 121 then if t < 120 then k == 429 else false else if t < 125 then k == 429 else k == 421
  }

  function ExtraKey1(t: int, k: int): bool {
    if t < 232 then
     if t < 200 then
      if t < 155 then
       if t < 133 then false else if t < 135 then k == 502 else false
      else
       if t < 174 then if t < 156 then k == 401 else false else if t < 175 then k == 685 else false
     else
      if t < 225 then
       if t < 223 then if t < 201 then k == 468 else false else if t < 224 then k == 468 else k == 450
      else
       if t < 228 then if t < 227 then false else k == 474 else if t < 231 then false else k == 474
    else
     if t < 241 then
      if t < 235 then
       if t < 233 then false else if t < 234 then k == 442 else k == 439
      else
       if t < 238 then if t < 236 then k == 434 else false else if t < 239 then k == 482 else false
     else
      if t < 329 then
       if t < 314 then if t < 242 then k == 465 else false else if t < 315 then k == 416 else false
      else
       if t < 331 then
        if t < 330 then (k == 477 || k == 478 || k == 479) else false
       else
        if t < 333 then k == 505 else (k == 487 || k == 661)
  }

  function ExtraKey2(t: int, k: int): bool {
    if t < 356 then
     if t < 343 then
      if t < 337 then
       if t < 335 then false else if t < 336 then k == 423 else k == 501
      else
       if t < 341 then if t < 338 then false else k == 473 else if t < 342 then k == 442 else k == 443
     else
      if t < 349 then
       if t < 347 then if t < 344 then k == 442 else false else if t < 348 then k == 435 else k == 463
      else
       if t < 351 then if t < 350 then k == 473 else false else if t < 352 then k == 443 else false
    else
     if t < 415 then
      if t < 363 then
       if t < 357 then k == 408 else if t < 362 then false else k == 498
      else
       if t < 391 then if t < 390 then false else k == 473 else if t < 414 then false else k == 463
     else
      if t < 427 then
       if t < 420 then if t < 419 then false else k == 451 else if t < 421 then k == 429 else false
      else
       if t < 429 then if t < 428 then k == 463 else false else if t < 430 then k == 442 else false
  }

  function ExtraKey3(t: int, k: int): bool {
    if t < 447 then
     if t < 443 then if t < 433 then k == 464 else false else if t < 444 then k == 506 else false
    else
     if t < 455 then if t < 448 then k == 506 else false else if t < 457 then k == 408 else false
  }

  /** Further gotos needed. */
  function ExtraKey(t: int, k: int): bool {
    if t < 334 then
     if t < 128 then ExtraKey0(t, k) else ExtraKey1(t, k)
    else
     if t < 432 then ExtraKey2(t, k) else ExtraKey3(t, k)
  }

  function ShiftRowItem0(o: int): int {
    if o < 205 then
     if o < 61 then
      if o < 16 then
       if o < -51 then 0 else if o < -18 then 2865 else 1635
      else
       if o < 32 then if o < 30 then 2865 else 0 else if o < 40 then 2865 else 0
     else
      if o < 104 then
       if o < 99 then if o < 73 then 2098 else 2865 else if o < 100 then 0 else 2865
      else
       if o < 137 then if o < 113 then 226 else 0 else if o < 172 then 4051 else 611
    else
     if o < 347 then
      if o < 242 then
       if o < 207 then 5217 else if o < 240 then 611 else 5235
      else
       if o < 312 then if o < 277 then 499 else 2644 else if o < 332 then 2402 else 4417
     else
      if o < 418 then
       if o < 384 then if o < 382 then 3170 else 3155 else if o < 417 then 2226 else 2579
      else
       if o < 422 then if o < 420 then 0 else 1649 else if o < 459 then 0 else 2865
  }

  function ShiftRowItem1(o: int): int {
    if o < 712 then
     if o < 607 then
      if o < 536 then
       if o < 519 then 3011 else if o < 529 then 2866 else 2865
      else
       if o < 564 then if o < 542 then 0 else 2145 else if o < 569 then 2865 else 0
     else
      if o < 667 then
       if o < 657 then if o < 612 then 4802 else 0 else if o < 663 then 1667 else 0
      else
       if o < 693 then if o < 672 then 4369 else 0 else if o < 705 then 3153 else 1489
    else
     if o < 772 then
      if o < 746 then
       if o < 719 then 0 else if o < 725 then 3636 else 0
      else
       if o < 765 then if o < 760 then 2865 else 0 else if o < 769 then 1762 else 2610
     else
      if o < 828 then
       if o < 804 then if o < 801 then 0 else 2865 else if o < 810 then 1745 else 0
      else
       if o < 848 then if o < 830 then 1507 else 1937 else if o < 851 then 4929 else 3058
  }

  function ShiftRowItem2(o: int): int {
    if o < 1152 then
     if o < 979 then
      if o < 949 then
       if o < 876 then 2898 else if o < 922 then 0 else 497
      else
       if o < 964 then if o < 961 then 0 else 4257 else if o < 978 then 0 else 1185
     else
      if o < 1011 then
       if o < 994 then if o < 987 then 0 else 2835 else if o < 1003 then 3954 else 657
      else
       if o < 1133 then if o < 1065 then 2293 else 0 else if o < 1141 then 2209 else 753
    else
     if o < 1210 then
      if o < 1177 then
       if o < 1170 then 0 else if o < 1176 then 561 else 3617
      else
       if o < 1189 then if o < 1187 then 3601 else 801 else if o < 1195 then 417 else 2433
     else
      if o < 1238 then
       if o < 1225 then if o < 1219 then 5283 else 0 else if o < 1234 then 4306 else 3457
      else
       if o < 1243 then if o < 1242 then 0 else 2562 else if o < 1246 then 0 else 4243
  }

  function ShiftRowItem3(o: int): int {
    if o < 1323 then
     if o < 1273 then
      if o < 1253 then
       if o < 1251 then 3523 else if o < 1252 then 2354 else 2258
      else
       if o < 1258 then if o < 1257 then 2228 else 3338 else if o < 1272 then 1060 else 1379
     else
      if o < 1289 then
       if o < 1281 then if o < 1279 then 1027 else 1875 else if o < 1282 then 3394 else 0
      else
       if o < 1293 then if o < 1290 then 419 else 0 else if o < 1295 then 929 else 0
    else
     if o < 1359 then
      if o < 1354 then
       if o < 1334 then 4195 else if o < 1346 then 0 else 2274
      else
       if o < 1357 then if o < 1355 then 2294 else 3905 else if o < 1358 then 0 else 2146
     else
      if o < 1365 then
       if o < 1361 then if o < 1360 then 0 else 4262 else if o < 1362 then 3921 else 3330
      else
       if o < 1372 then if o < 1367 then 0 else 2197 else if o < 1373 then 3841 else 4179
  }

  function ShiftRowItem4(o: int): int {
    if o < 1426 then
     if o < 1409 then
      if o < 1394 then
       if o < 1377 then 0 else if o < 1391 then 3892 else 3334
      else
       if o < 1398 then if o < 1397 then 0 else 881 else if o < 1405 then 3655 else 1061
     else
      if o < 1415 then
       if o < 1412 then if o < 1410 then 1329 else 1506 else if o < 1414 then 0 else 5106
      else
       if o < 1421 then if o < 1419 then 1779 else 3697 else if o < 1423 then 4609 else 3761
    else
     if o < 1437 then
      if o < 1433 then
       if o < 1429 then 2483 else if o < 1432 then 3857 else 5105
      else
       if o < 1435 then if o < 1434 then 2465 else 3873 else if o < 1436 then 0 else 1057
     else
      if o < 1444 then
       if o < 1442 then if o < 1441 then 1009 else 4241 else if o < 1443 then 577 else 4673
      else
       if o < 1449 then if o < 1446 then 4657 else 0 else if o < 1450 then 3589 else 2259
  }

  function ShiftRowItem5(o: int): int {
    if o < 1477 then
     if o < 1458 then
      if o < 1454 then
       if o < 1452 then 4180 else if o < 1453 then 2241 else 3557
      else
       if o < 1456 then if o < 1455 then 2229 else 2211 else if o < 1457 then 18 else 4177
     else
      if o < 1466 then
       if o < 1460 then if o < 1459 then 1105 else 17 else if o < 1461 then 1201 else 865
      else
       if o < 1474 then if o < 1467 then 4258 else 1841 else if o < 1475 then 2369 else 3336
    else
     if o < 1489 then
      if o < 1482 then
       if o < 1479 then 2033 else if o < 1480 then 1921 else 1857
      else
       if o < 1486 then if o < 1483 then 3825 else 1239 else if o < 1488 then 274 else 1013
     else
      if o < 1494 then
       if o < 1491 then if o < 1490 then 273 else 1058 else if o < 1492 then 3634 else 1041
      else
       if o < 1496 then if o < 1495 then 3810 else 1025 else if o < 1498 then 1010 else 609
  }

  function ShiftRowItem6(o: int): int {
    if o < 1523 then
     if o < 1508 then
      if o < 1502 then
       if o < 1500 then 2611 else if o < 1501 then 2596 else 3074
      else
       if o < 1506 then if o < 1505 then 2642 else 1377 else if o < 1507 then 1396 else 1393
     else
      if o < 1515 then
       if o < 1512 then if o < 1511 then 1394 else 1651 else if o < 1514 then 1637 else 3265
      else
       if o < 1521 then if o < 1516 then 1873 else 1937 else if o < 1522 then 3314 else 3092
    else
     if o < 1530 then
      if o < 1526 then
       if o < 1524 then 3060 else if o < 1525 then 3973 else 3971
      else
       if o < 1528 then if o < 1527 then 3955 else 3140 else if o < 1529 then 3953 else 4389
     else
      if o < 1535 then
       if o < 1532 then if o < 1531 then 4386 else 4387 else if o < 1533 then 4401 else 4407
      else
       if o < 1537 then if o < 1536 then 4405 else 4404 else if o < 1538 then 3121 else 3123
  }

  function ShiftRowItem7(o: int): int {
    if o < 1544 then
     if o < 1540 then 2581 else if o < 1542 then 437 else 2577
    else
     if o < 1568 then if o < 1553 then 323 else 210 else if o < 1570 then 4482 else 0
  }

  /** The position vouched for by the row at offset o, for terminals */
  function ShiftRowItem(o: int): int {
    if o < 1375 then
     if o < 856 then
      if o < 494 then ShiftRowItem0(o) else ShiftRowItem1(o)
     else
      if o < 1248 then ShiftRowItem2(o) else ShiftRowItem3(o)
    else
     if o < 1499 then
      if o < 1451 then ShiftRowItem4(o) else ShiftRowItem5(o)
     else
      if o < 1539 then ShiftRowItem6(o) else ShiftRowItem7(o)
  }

  function GotoRowItem0(o: int): int {
    if o < 182 then
     if o < 76 then
      if o < 5 then
       if o < -49 then 1059 else if o < -29 then 1395 else 0
      else
       if o < 57 then if o < 36 then 2275 else 225 else if o < 62 then 481 else 3393
     else
      if o < 147 then
       if o < 116 then if o < 112 then 2865 else 530 else if o < 131 then 3922 else 514
      else
       if o < 150 then if o < 148 then 1137 else 4053 else if o < 167 then 2198 else 2210
    else
     if o < 278 then
      if o < 221 then
       if o < 217 then 4818 else if o < 220 then 1106 else 3893
      else
       if o < 250 then if o < 235 then 4353 else 436 else if o < 272 then 2466 else 1617
     else
      if o < 331 then
       if o < 306 then if o < 291 then 1281 else 1778 else if o < 307 then 5249 else 1636
      else
       if o < 355 then if o < 349 then 1745 else 3906 else if o < 364 then 786 else 3106
  }

  function GotoRowItem1(o: int): int {
    if o < 556 then
     if o < 492 then
      if o < 435 then
       if o < 416 then 3890 else if o < 419 then 418 else 1378
      else
       if o < 454 then if o < 438 then 1474 else 4181 else if o < 491 then 3556 else 3313
     else
      if o < 523 then
       if o < 497 then if o < 495 then 4370 else 1281 else if o < 517 then 4161 else 4129
      else
       if o < 533 then if o < 525 then 1065 else 4481 else if o < 535 then 2595 else 2195
    else
     if o < 620 then
      if o < 591 then
       if o < 557 then 2147 else if o < 566 then 1362 else 3059
      else
       if o < 605 then if o < 601 then 3521 else 2865 else if o < 611 then 2401 else 4197
     else
      if o < 690 then
       if o < 653 then if o < 644 then 4035 else 1939 else if o < 668 then 3505 else 3635
      else
       if o < 720 then if o < 700 then 4263 else 4753 else if o < 722 then 3475 else 4433
  }

  function GotoRowItem2(o: int): int {
    if o < 824 then
     if o < 784 then
      if o < 775 then
       if o < 739 then 1650 else if o < 747 then 4260 else 3337
      else
       if o < 777 then if o < 776 then 3858 else 4242 else if o < 783 then 321 else 1473
     else
      if o < 795 then
       if o < 788 then if o < 786 then 770 else 1026 else if o < 790 then 2034 else 3137
      else
       if o < 799 then if o < 798 then 1011 else 3842 else if o < 808 then 754 else 1298
    else
     if o < 889 then
      if o < 855 then
       if o < 827 then 3809 else if o < 832 then 1922 else 3540
      else
       if o < 872 then if o < 864 then 4178 else 2353 else if o < 879 then 1251 else 2277
     else
      if o < 905 then
       if o < 897 then if o < 892 then 4610 else 3335 else if o < 898 then 1187 else 4066
      else
       if o < 908 then if o < 907 then 4097 else 4052 else if o < 911 then 3332 else 4050
  }

  function GotoRowItem3(o: int): int {
    if o < 965 then
     if o < 943 then
      if o < 930 then
       if o < 924 then 2260 else if o < 926 then 3651 else 1585
      else
       if o < 936 then if o < 933 then 1236 else 2242 else if o < 940 then 2230 else 2212
     else
      if o < 952 then
       if o < 947 then if o < 945 then 3793 else 1619 else if o < 950 then 1042 else 610
      else
       if o < 958 then if o < 955 then 2643 else 1793 else if o < 962 then 2177 else 2065
    else
     if o < 988 then
      if o < 977 then
       if o < 969 then 1938 else if o < 974 then 2131 else 2899
      else
       if o < 981 then if o < 980 then 3266 else 3171 else if o < 984 then 737 else 3169
     else
      if o < 996 then
       if o < 992 then if o < 991 then 3185 else 3156 else if o < 993 then 3656 else 3154
      else
       if o < 1002 then if o < 999 then 2961 else 2945 else if o < 1006 then 2929 else 2913
  }

  function GotoRowItem4(o: int): int {
    if o < 1051 then
     if o < 1034 then
      if o < 1021 then
       if o < 1015 then 2578 else if o < 1018 then 228 else 3012
      else
       if o < 1028 then if o < 1024 then 3010 else 2882 else if o < 1032 then 2836 else 2818
     else
      if o < 1040 then
       if o < 1036 then if o < 1035 then 2770 else 2257 else if o < 1037 then 2754 else 2227
      else
       if o < 1047 then if o < 1046 then 2738 else 2722 else if o < 1050 then 3762 else 1874
    else
     if o < 1068 then
      if o < 1062 then
       if o < 1054 then 2706 else if o < 1058 then 1569 else 2690
      else
       if o < 1064 then if o < 1063 then 2674 else 1062 else if o < 1066 then 2658 else 3908
     else
      if o < 1073 then
       if o < 1070 then if o < 1069 then 2115 else 993 else if o < 1072 then 2097 else 385
      else
       if o < 1089 then if o < 1088 then 498 else 3654 else if o < 1094 then 2580 else 1240
  }

  function GotoRowItem5(o: int): int {
    if o < 1128 then
     if o < 1107 then
      if o < 1098 then
       if o < 1096 then 337 else if o < 1097 then 4388 else 4406
      else
       if o < 1102 then if o < 1101 then 3122 else 625 else if o < 1103 then 3653 else 3923
     else
      if o < 1123 then
       if o < 1119 then if o < 1111 then 3891 else 4196 else if o < 1122 then 1652 else 3139
      else
       if o < 1125 then if o < 1124 then 4065 else 1668 else if o < 1126 then 4049 else 1638
    else
     if o < 1144 then
      if o < 1131 then
       if o < 1129 then 3970 else if o < 1130 then 2196 else 2148
      else
       if o < 1139 then if o < 1134 then 1297 else 1620 else if o < 1140 then 2594 else 2199
     else
      if o < 1153 then
       if o < 1150 then if o < 1147 then 3894 else 2276 else if o < 1151 then 1363 else 1842
      else
       if o < 1157 then if o < 1156 then 1361 else 4817 else if o < 1159 then 3658 else 3907
  }

  function GotoRowItem6(o: int): int {
    if o < 1179 then
     if o < 1168 then
      if o < 1164 then
       if o < 1161 then 3657 else if o < 1162 then 2370 else 1521
      else
       if o < 1166 then if o < 1165 then 1697 else 2201 else if o < 1167 then 3972 else 721
     else
      if o < 1173 then
       if o < 1171 then if o < 1169 then 3410 else 2200 else if o < 1172 then 4402 else 2484
      else
       if o < 1175 then if o < 1174 then 465 else 369 else if o < 1178 then 194 else 177
    else
     if o < 1186 then
      if o < 1182 then
       if o < 1180 then 1012 else if o < 1181 then 212 else 4545
      else
       if o < 1184 then if o < 1183 then 578 else 3426 else if o < 1185 then 3412 else 2194
     else
      if o < 1192 then
       if o < 1190 then if o < 1188 then 2151 else 49 else if o < 1191 then 2150 else 2149
      else
       if o < 1194 then if o < 1193 then 4034 else 3474 else if o < 1196 then 1250 else 1186
  }

  function GotoRowItem7(o: int): int {
    if o < 1213 then
     if o < 1204 then
      if o < 1200 then
       if o < 1198 then 4593 else if o < 1199 then 3924 else 3339
      else
       if o < 1202 then if o < 1201 then 3889 else 2305 else if o < 1203 then 4162 else 4130
     else
      if o < 1208 then
       if o < 1206 then if o < 1205 then 1654 else 3522 else if o < 1207 then 1653 else 1670
      else
       if o < 1211 then if o < 1209 then 3108 else 1640 else if o < 1212 then 1669 else 1639
    else
     if o < 1221 then
      if o < 1216 then
       if o < 1214 then 1622 else if o < 1215 then 3138 else 3425
      else
       if o < 1218 then if o < 1217 then 3411 else 4261 else if o < 1220 then 1621 else 4259
     else
      if o < 1227 then
       if o < 1224 then if o < 1223 then 3333 else 3331 else if o < 1226 then 1238 else 5282
      else
       if o < 1229 then if o < 1228 then 1063 else 1713 else if o < 1230 then 897 else 4305
  }

  function GotoRowItem8(o: int): int {
    if o < 1260 then
     if o < 1244 then
      if o < 1235 then
       if o < 1232 then 1368 else if o < 1233 then 1044 else 1028
      else
       if o < 1237 then if o < 1236 then 1014 else 626 else if o < 1240 then 3652 else 3650
     else
      if o < 1254 then
       if o < 1249 then if o < 1247 then 1237 else 1235 else if o < 1250 then 229 else 593
      else
       if o < 1256 then if o < 1255 then 227 else 580 else if o < 1259 then 579 else 882
    else
     if o < 1267 then
      if o < 1263 then
       if o < 1261 then 562 else if o < 1262 then 4785 else 4385
      else
       if o < 1265 then if o < 1264 then 1618 else 1367 else if o < 1266 then 4403 else 1366
     else
      if o < 1280 then
       if o < 1269 then if o < 1268 then 5234 else 1365 else if o < 1270 then 3107 else 1364
      else
       if o < 1284 then if o < 1283 then 1064 else 627 else if o < 1288 then 324 else 322
  }

  function GotoRowItem9(o: int): int {
    if o < 1299 then
     if o < 1297 then if o < 1294 then 4198 else 4625 else if o < 1298 then 193 else 211
    else
     if o < 1303 then
      if o < 1302 then 4611 else 161
     else
      if o < 1304 then 145 else if o < 1305 then 129 else 50
  }

  /** and for nonterminals. */
  function GotoRowItem(o: int): int {
    if o < 1095 then
     if o < 734 then
      if o < 404 then GotoRowItem0(o) else GotoRowItem1(o)
     else
      if o < 921 then GotoRowItem2(o) else if o < 1010 then GotoRowItem3(o) else GotoRowItem4(o)
    else
     if o < 1197 then
      if o < 1160 then GotoRowItem5(o) else GotoRowItem6(o)
     else
      if o < 1231 then GotoRowItem7(o) else if o < 1292 then GotoRowItem8(o) else GotoRowItem9(o)
  }

  function ShiftRowKey0(o: int, k: int): bool {
    if o < 113 then
     if o < 32 then
      if o < -18 then
       if o < -51 then
        k == 172
       else
        if o < -19 then k == 429 else (k == 210 || k == 221 || k == 222 || k == 223 || k == 429)
      else
       if o < 23 then
        if o < 16 then (k == 210 || k == 979) else (k == 175 || k == 221 || k == 222 || k == 223 || k == 429)
       else
        if o < 30 then k == 429 else k == 196
     else
      if o < 73 then
       if o < 45 then
        if o < 40 then k == 429 else (k == 146 || k == 147)
       else
        if o < 61 then k == 197 else (k == 221 || k == 222 || k == 223 || k == 429 || k == 717)
      else
       if o < 100 then
        if o < 99 then k == 429 else (k == 152 || k == 218)
       else
        if o < 104 then
         (k == 221 || k == 222 || k == 223 || k == 241 || k == 429)
        else
         (k == 487 || k == 661 || k == 666)
    else
     if o < 277 then
      if o < 205 then
       if o < 137 then
        (k == 195 || k == 206)
       else
        if o < 172 then
         (k == 221 || k == 222 || k == 223 || k == 429 || k == 917)
        else
         (k == 221 || k == 222 || k == 223 || k == 429 || k == 953)
      else
       if o < 240 then
        if o < 207 then
         (k == 247 || k == 248 || k == 501)
        else
         (k == 221 || k == 222 || k == 223 || k == 429 || k == 939)
       else
        if o < 242 then
         (k == 247 || k == 248 || k == 1013)
        else
         (k == 221 || k == 222 || k == 223 || k == 429 || k == 939)
     else
      if o < 382 then
       if o < 332 then
        if o < 312 then
         (k == 221 || k == 222 || k == 223 || k == 429 || k == 1197)
        else
         (k == 221 || k == 222 || k == 223 || k == 429 || k == 685)
       else
        if o < 347 then
         (k == 146 || k == 147 || k == 400)
        else
         (k == 221 || k == 222 || k == 223 || k == 429 || k == 738)
      else
       if o < 417 then
        if o < 384 then (k == 221 || k == 222 || k == 223 || k == 429 || k == 994) else (k == 152 || k == 730)
       else
        if o < 418 then (k == 221 || k == 222 || k == 223 || k == 429 || k == 941) else k == 214
  }

  function ShiftRowKey1(o: int, k: int): bool {
    if o < 613 then
     if o < 542 then
      if o < 494 then
       if o < 422 then
        (k == 152 || k == 467)
       else
        if o < 459 then k == 167 else (k == 221 || k == 222 || k == 223 || k == 429)
      else
       if o < 529 then
        if o < 519 then
         (k == 221 || k == 222 || k == 223 || k == 429 || k == 941)
        else
         (k == 477 || k == 478 || k == 479 || k == 685)
       else
        if o < 536 then (k == 221 || k == 222 || k == 223 || k == 429) else (k == 171 || k == 179)
     else
      if o < 599 then
       if o < 569 then
        if o < 564 then
         (k == 195 || k == 206 || k == 219 || k == 405)
        else
         (k == 221 || k == 222 || k == 223 || k == 429)
       else
        if o < 573 then k == 239 else (k == 152 || k == 185)
      else
       if o < 607 then
        if o < 600 then (k == 152 || k == 172 || k == 173 || k == 196 || k == 208) else k == 196
       else
        if o < 612 then (k == 184 || k == 673) else (k == 152 || k == 172 || k == 173 || k == 196)
    else
     if o < 712 then
      if o < 667 then
       if o < 657 then k == 185 else if o < 663 then (k == 213 || k == 979) else k == 180
      else
       if o < 693 then
        if o < 672 then (k == 152 || k == 452) else k == 181
       else
        if o < 705 then (k == 227 || k == 482) else (k == 152 || k == 172 || k == 173 || k == 455)
     else
      if o < 760 then
       if o < 725 then
        if o < 719 then k == 210 else (k == 196 || k == 219 || k == 237 || k == 1173)
       else
        if o < 746 then (k == 196 || k == 219 || k == 237) else k == 429
      else
       if o < 769 then
        if o < 765 then (k == 152 || k == 172 || k == 173) else (k == 152 || k == 725)
       else
        if o < 772 then (k == 198 || k == 685) else k == 234
  }

  function ShiftRowKey2(o: int, k: int): bool {
    if o < 964 then
     if o < 851 then
      if o < 813 then
       if o < 804 then k == 429 else if o < 810 then (k == 152 || k == 469) else k == 213
      else
       if o < 830 then
        if o < 828 then (k == 190 || k == 191) else (k == 152 || k == 967)
       else
        if o < 848 then (k == 176 || k == 442) else (k == 200 || k == 465)
     else
      if o < 904 then
       if o < 876 then
        if o < 856 then (k == 152 || k == 685) else (k == 152 || k == 172 || k == 173 || k == 685)
       else
        if o < 882 then (k == 152 || k == 169 || k == 170 || k == 230) else k == 175
      else
       if o < 949 then
        if o < 922 then (k == 149 || k == 156 || k == 196) else (k == 172 || k == 427)
       else
        if o < 961 then k == 152 else (k == 157 || k == 228 || k == 500)
    else
     if o < 1065 then
      if o < 987 then
       if o < 978 then (k == 169 || k == 170) else if o < 979 then k == 405 else (k == 179 || k == 180)
      else
       if o < 1003 then
        if o < 994 then (k == 429 || k == 941) else (k == 191 || k == 685)
       else
        if o < 1011 then k == 427 else (k == 196 || k == 1429)
     else
      if o < 1152 then
       if o < 1133 then
        if o < 1118 then k == 155 else k == 233
       else
        if o < 1141 then (k == 201 || k == 474) else k == 436
      else
       if o < 1176 then
        if o < 1170 then k == 198 else (k == 427 || k == 435)
       else
        if o < 1177 then k == 426 else k == 425
  }

  function ShiftRowKey3(o: int, k: int): bool {
    if o < 1251 then
     if o < 1238 then
      if o < 1210 then
       if o < 1189 then k == 437 else if o < 1195 then (k == 422 || k == 423) else (k == 408 || k == 429)
      else
       if o < 1225 then
        if o < 1219 then (k == 505 || k == 1017) else k == 150
       else
        if o < 1234 then (k == 505 || k == 759) else k == 485
     else
      if o < 1243 then
       if o < 1241 then if o < 1239 then k == 159 else k == 205 else if o < 1242 then k == 201 else k == 685
      else
       if o < 1246 then
        if o < 1245 then k == 204 else k == 236
       else
        if o < 1248 then (k == 501 || k == 917) else k == 917
    else
     if o < 1279 then
      if o < 1257 then
       if o < 1252 then
        (k == 473 || k == 732)
       else
        if o < 1253 then (k == 473 || k == 730) else (k == 473 || k == 1242)
      else
       if o < 1272 then
        if o < 1258 then (k == 442 || k == 2709) else (k == 443 || k == 1209)
       else
        if o < 1273 then (k == 463 || k == 974) else (k == 442 || k == 953)
     else
      if o < 1287 then
       if o < 1282 then
        if o < 1281 then (k == 473 || k == 984) else (k == 443 || k == 689)
       else
        if o < 1286 then k == 226 else k == 243
      else
       if o < 1290 then if o < 1289 then k == 240 else k == 934 else if o < 1293 then k == 216 else k == 438
  }

  function ShiftRowKey4(o: int, k: int): bool {
    if o < 1359 then
     if o < 1334 then
      if o < 1310 then
       if o < 1308 then k == 174 else if o < 1309 then k == 176 else k == 235
      else
       if o < 1315 then if o < 1311 then k == 215 else k == 202 else if o < 1323 then k == 203 else k == 917
     else
      if o < 1354 then
       if o < 1345 then if o < 1344 then k == 182 else k == 220 else if o < 1346 then k == 189 else k == 661
      else
       if o < 1357 then if o < 1355 then k == 1685 else k == 493 else if o < 1358 then k == 192 else k == 661
    else
     if o < 1373 then
      if o < 1362 then
       if o < 1360 then k == 158 else if o < 1361 then k == 1780 else k == 493
      else
       if o < 1367 then if o < 1365 then k == 661 else k == 229 else if o < 1372 then k == 1429 else k == 494
     else
      if o < 1394 then
       if o < 1377 then if o < 1375 then k == 917 else k == 177 else if o < 1391 then k == 1261 else k == 1685
      else
       if o < 1398 then if o < 1397 then k == 224 else k == 435 else if o < 1405 then k == 2023 else k == 1465
  }

  function ShiftRowKey5(o: int, k: int): bool {
    if o < 1441 then
     if o < 1423 then
      if o < 1414 then
       if o < 1410 then k == 453 else if o < 1412 then (k == 429 || k == 711) else k == 162
      else
       if o < 1419 then
        if o < 1415 then k == 747 else k == 981
       else
        if o < 1421 then k == 489 else (k == 161 || k == 416)
     else
      if o < 1433 then
       if o < 1429 then if o < 1426 then k == 490 else k == 941 else if o < 1432 then k == 495 else k == 491
      else
       if o < 1435 then if o < 1434 then k == 429 else k == 495 else if o < 1436 then k == 153 else k == 441
    else
     if o < 1452 then
      if o < 1446 then
       if o < 1442 then k == 405 else if o < 1443 then k == 427 else k == 408
      else
       if o < 1450 then if o < 1449 then k == 151 else k == 1429 else if o < 1451 then k == 986 else k == 1173
     else
      if o < 1456 then
       if o < 1454 then if o < 1453 then k == 474 else k == 1429 else if o < 1455 then k == 1498 else k == 986
      else
       if o < 1458 then if o < 1457 then k == 659 else k == 405 else if o < 1459 then k == 430 else k == 403
  }

  function ShiftRowKey6(o: int, k: int): bool {
    if o < 1491 then
     if o < 1479 then
      if o < 1467 then
       if o < 1461 then k == 448 else if o < 1466 then k == 437 else k == 756
      else
       if o < 1475 then if o < 1474 then k == 470 else k == 473 else if o < 1477 then k == 2197 else k == 458
     else
      if o < 1486 then
       if o < 1482 then if o < 1480 then k == 460 else k == 470 else if o < 1483 then k == 488 else k == 1941
      else
       if o < 1489 then if o < 1488 then k == 670 else k == 1465 else if o < 1490 then k == 414 else k == 697
    else
     if o < 1500 then
      if o < 1495 then
       if o < 1492 then k == 661 else if o < 1494 then k == 441 else k == 744
      else
       if o < 1498 then if o < 1496 then k == 441 else k == 697 else if o < 1499 then k == 427 else k == 941
     else
      if o < 1506 then
       if o < 1502 then
        if o < 1501 then k == 1197 else k == 685
       else
        if o < 1505 then (k == 463 || k == 685) else k == 462
      else
       if o < 1508 then if o < 1507 then k == 1230 else k == 462 else if o < 1511 then k == 718 else k == 979
  }

  function ShiftRowKey7(o: int, k: int): bool {
    if o < 1532 then
     if o < 1524 then
      if o < 1516 then
       if o < 1514 then k == 1491 else if o < 1515 then k == 463 else k == 472
      else
       if o < 1521 then k == 442 else if o < 1522 then k == 736 else k == 1197
     else
      if o < 1528 then
       if o < 1525 then k == 1453 else if o < 1527 then k == 941 else k == 1197
      else
       if o < 1530 then if o < 1529 then k == 429 else k == 1530 else if o < 1531 then k == 762 else k == 1018
    else
     if o < 1539 then
      if o < 1536 then
       if o < 1533 then k == 506 else if o < 1535 then k == 2042 else k == 1530
      else
       if o < 1537 then k == 1274 else if o < 1538 then k == 429 else k == 941
     else
      if o < 1544 then
       if o < 1540 then k == 1453 else if o < 1542 then k == 1446 else k == 429
      else
       if o < 1568 then if o < 1553 then k == 923 else k == 661 else if o < 1570 then k == 658 else false
  }

  /** The gotos vouched for by the row at offset o, for terminals */
  function ShiftRowKey(o: int, k: int): bool {
    if o < 1295 then
     if o < 801 then
      if o < 420 then ShiftRowKey0(o, k) else ShiftRowKey1(o, k)
     else
      if o < 1187 then ShiftRowKey2(o, k) else ShiftRowKey3(o, k)
    else
     if o < 1460 then
      if o < 1409 then ShiftRowKey4(o, k) else ShiftRowKey5(o, k)
     else
      if o < 1512 then ShiftRowKey6(o, k) else ShiftRowKey7(o, k)
  }

  function GotoRowKey0(o: int, k: int): bool {
    if o < 182 then
     if o < 76 then
      if o < 5 then
       if o < -49 then
        (k == 187 || k == 953)
       else
        if o < -29 then (k == 173 || k == 207 || k == 208 || k == 974) else (k == 144 || k == 145 || k == 146)
      else
       if o < 57 then
        if o < 36 then (k == 193 || k == 917) else (k == 231 || k == 405 || k == 410)
       else
        if o < 62 then k == 427 else (k == 187 || k == 433)
     else
      if o < 147 then
       if o < 116 then
        if o < 112 then k == 429 else k == 683
       else
        if o < 131 then (k == 238 || k == 749) else k == 683
      else
       if o < 150 then
        if o < 148 then k == 445 else (k == 429 || k == 1429)
       else
        if o < 167 then (k == 218 || k == 1685) else k == 730
    else
     if o < 278 then
      if o < 221 then
       if o < 217 then k == 695 else if o < 220 then k == 686 else (k == 218 || k == 1517)
      else
       if o < 250 then
        if o < 235 then (k == 250 || k == 452) else k == 1190
       else
        if o < 272 then k == 685 else k == 467
     else
      if o < 331 then
       if o < 306 then
        if o < 291 then (k == 194 || k == 195 || k == 206 || k == 419) else k == 725
       else
        if o < 307 then (k == 247 || k == 502) else (k == 173 || k == 207 || k == 208 || k == 1235)
      else
       if o < 355 then
        if o < 349 then k == 469 else (k == 238 || k == 749)
       else
        if o < 364 then k == 692 else k == 685
  }

  function GotoRowKey1(o: int, k: int): bool {
    if o < 566 then
     if o < 492 then
      if o < 435 then
       if o < 416 then
        (k == 238 || k == 749)
       else
        if o < 419 then k == 678 else (k == 173 || k == 207 || k == 718)
      else
       if o < 454 then
        if o < 438 then (k == 429 || k == 711) else k == 1429
       else
        if o < 491 then k == 1173 else (k == 173 || k == 207 || k == 208 || k == 480)
     else
      if o < 525 then
       if o < 497 then
        if o < 495 then (k == 250 || k == 708) else (k == 194 || k == 195 || k == 206 || k == 405 || k == 419)
       else
        if o < 523 then k == 405 else (k == 434 || k == 2489)
      else
       if o < 535 then
        if o < 533 then
         (k == 148 || k == 149 || k == 154 || k == 163 || k == 244 || k == 402)
        else
         (k == 173 || k == 207 || k == 208 || k == 941)
       else
        if o < 557 then (k == 193 || k == 917) else (k == 199 || k == 209 || k == 707)
    else
     if o < 653 then
      if o < 605 then
       if o < 591 then
        (k == 163 || k == 173 || k == 207 || k == 208 || k == 941)
       else
        if o < 601 then k == 405 else (k == 429 || k == 442)
      else
       if o < 620 then
        if o < 611 then (k == 163 || k == 173 || k == 207 || k == 429) else (k == 164 || k == 1429)
       else
        if o < 644 then (k == 193 || k == 917) else (k == 429 || k == 954)
     else
      if o < 720 then
       if o < 690 then
        if o < 668 then k == 405 else (k == 163 || k == 232 || k == 237 || k == 917)
       else
        if o < 700 then k == 2036 else (k == 171 || k == 421)
      else
       if o < 734 then
        if o < 722 then (k == 193 || k == 917) else (k == 146 || k == 401)
       else
        if o < 739 then (k == 163 || k == 211 || k == 212 || k == 723) else k == 1268
  }

  function GotoRowKey2(o: int, k: int): bool {
    if o < 832 then
     if o < 788 then
      if o < 777 then
       if o < 775 then
        (k == 173 || k == 186 || k == 2453)
       else
        if o < 776 then k == 751 else (k == 245 || k == 246 || k == 661)
      else
       if o < 784 then
        if o < 783 then (k == 160 || k == 164 || k == 411) else (k == 173 || k == 455)
       else
        if o < 786 then k == 692 else (k == 173 || k == 186 || k == 697)
     else
      if o < 799 then
       if o < 795 then
        if o < 790 then (k == 173 || k == 207 || k == 714) else (k == 173 || k == 225 || k == 429)
       else
        if o < 798 then (k == 173 || k == 186 || k == 953) else k == 750
      else
       if o < 824 then
        if o < 808 then k == 692 else (k == 195 || k == 206 || k == 706)
       else
        if o < 827 then (k == 163 || k == 237 || k == 488) else (k == 173 || k == 186 || k == 716)
    else
     if o < 897 then
      if o < 872 then
       if o < 855 then
        k == 1173
       else
        if o < 864 then (k == 193 || k == 242 || k == 661) else (k == 217 || k == 476)
      else
       if o < 889 then
        if o < 879 then (k == 193 || k == 917) else (k == 163 || k == 1429)
       else
        if o < 892 then (k == 164 || k == 183 || k == 417 || k == 672) else k == 1941
     else
      if o < 908 then
       if o < 905 then
        if o < 898 then (k == 193 || k == 917) else (k == 173 || k == 661)
       else
        if o < 907 then (k == 173 || k == 497) else (k == 173 || k == 1173)
      else
       if o < 921 then
        if o < 911 then k == 1173 else (k == 173 || k == 661)
       else
        if o < 924 then (k == 173 || k == 1242) else k == 999
  }

  function GotoRowKey3(o: int, k: int): bool {
    if o < 974 then
     if o < 947 then
      if o < 936 then
       if o < 930 then k == 468 else if o < 933 then k == 1173 else (k == 173 || k == 730)
      else
       if o < 943 then
        if o < 940 then (k == 173 || k == 1754) else (k == 173 || k == 1242)
       else
        if o < 945 then (k == 173 || k == 492) else k == 979
     else
      if o < 958 then
       if o < 952 then
        if o < 950 then (k == 173 || k == 697) else (k == 173 || k == 683)
       else
        if o < 955 then (k == 173 || k == 719 || k == 941) else (k == 173 || k == 471)
      else
       if o < 965 then
        if o < 962 then (k == 173 || k == 457) else (k == 173 || k == 459)
       else
        if o < 969 then (k == 173 || k == 698) else (k == 173 || k == 973)
    else
     if o < 992 then
      if o < 981 then
       if o < 977 then
        (k == 173 || k == 941)
       else
        if o < 980 then (k == 173 || k == 719) else (k == 173 || k == 994)
      else
       if o < 988 then
        if o < 984 then k == 436 else (k == 173 || k == 482)
       else
        if o < 991 then (k == 173 || k == 483) else (k == 173 || k == 1250)
     else
      if o < 1015 then
       if o < 996 then
        if o < 993 then (k == 193 || k == 2279) else (k == 173 || k == 738)
       else
        if o < 1010 then (k == 173 || k == 429) else (k == 173 || k == 685)
      else
       if o < 1021 then
        if o < 1018 then k == 1178 else (k == 173 || k == 1197)
       else
        if o < 1028 then (k == 173 || k == 685) else (k == 173 || k == 1197)
  }

  function GotoRowKey4(o: int, k: int): bool {
    if o < 1070 then
     if o < 1051 then
      if o < 1037 then
       if o < 1035 then
        (k == 173 || k == 685)
       else
        if o < 1036 then (k == 217 || k == 474) else (k == 173 || k == 685)
      else
       if o < 1047 then
        if o < 1040 then (k == 217 || k == 986) else (k == 173 || k == 685)
       else
        if o < 1050 then (k == 217 || k == 746) else (k == 217 || k == 728)
     else
      if o < 1064 then
       if o < 1058 then
        if o < 1054 then (k == 173 || k == 685) else (k == 211 || k == 212 || k == 456)
       else
        if o < 1063 then (k == 173 || k == 685) else k == 1721
      else
       if o < 1068 then
        if o < 1066 then (k == 173 || k == 685) else (k == 163 || k == 1261)
       else
        if o < 1069 then (k == 173 || k == 973) else k == 441
    else
     if o < 1096 then
      if o < 1088 then
       if o < 1072 then
        (k == 173 || k == 461)
       else
        if o < 1073 then (k == 166 || k == 167 || k == 420) else (k == 173 || k == 683)
      else
       if o < 1094 then
        if o < 1089 then k == 1767 else (k == 166 || k == 167 || k == 1197)
       else
        if o < 1095 then (k == 163 || k == 2197) else (k == 163 || k == 411)
     else
      if o < 1102 then
       if o < 1098 then
        if o < 1097 then (k == 163 || k == 1274) else (k == 163 || k == 1786)
       else
        if o < 1101 then (k == 163 || k == 685) else k == 427
      else
       if o < 1111 then
        if o < 1103 then k == 1511 else k == 1005
       else
        if o < 1119 then k == 1173 else k == 1235
  }

  function GotoRowKey5(o: int, k: int): bool {
    if o < 1153 then
     if o < 1131 then
      if o < 1125 then
       if o < 1123 then k == 941 else if o < 1124 then k == 405 else k == 1235
      else
       if o < 1128 then if o < 1126 then k == 405 else k == 1747 else if o < 1129 then k == 685 else k == 1173
     else
      if o < 1144 then
       if o < 1139 then if o < 1134 then k == 450 else k == 1235 else if o < 1140 then k == 685 else k == 1941
      else
       if o < 1150 then if o < 1147 then k == 1773 else k == 1173 else if o < 1151 then k == 963 else k == 726
    else
     if o < 1164 then
      if o < 1159 then
       if o < 1156 then k == 451 else if o < 1157 then k == 439 else k == 2791
      else
       if o < 1161 then if o < 1160 then k == 1005 else k == 2535 else if o < 1162 then k == 729 else k == 466
     else
      if o < 1168 then
       if o < 1166 then if o < 1165 then k == 415 else k == 2453 else if o < 1167 then k == 1197 else k == 434
      else
       if o < 1171 then if o < 1169 then k == 699 else k == 2197 else if o < 1172 then k == 762 else k == 1197
  }

  function GotoRowKey6(o: int, k: int): bool {
    if o < 1192 then
     if o < 1182 then
      if o < 1178 then
       if o < 1174 then k == 427 else if o < 1175 then k == 418 else k == 661
      else
       if o < 1180 then if o < 1179 then k == 405 else k == 1209 else if o < 1181 then k == 1173 else k == 407
     else
      if o < 1186 then
       if o < 1184 then if o < 1183 then k == 683 else k == 699 else if o < 1185 then k == 1211 else k == 661
      else
       if o < 1190 then
        if o < 1188 then k == 1941 else k == 405
       else
        if o < 1191 then k == 1685 else k == 1429
    else
     if o < 1204 then
      if o < 1199 then
       if o < 1197 then k == 661 else if o < 1198 then k == 405 else k == 1261
      else
       if o < 1201 then if o < 1200 then k == 2965 else k == 493 else if o < 1202 then k == 475 else k == 661
     else
      if o < 1208 then
       if o < 1206 then
        if o < 1205 then k == 1747 else k == 661
       else
        if o < 1207 then k == 1491 else k == 1747
      else
       if o < 1211 then
        if o < 1209 then k == 1197 else k == 2259
       else
        if o < 1212 then k == 1491 else k == 2003
  }

  function GotoRowKey7(o: int, k: int): bool {
    if o < 1231 then
     if o < 1221 then
      if o < 1216 then
       if o < 1214 then k == 1747 else if o < 1215 then (k == 226 || k == 685) else k == 443
      else
       if o < 1218 then
        if o < 1217 then k == 955 else k == 1524
       else
        if o < 1220 then k == 1491 else k == 1012
     else
      if o < 1227 then
       if o < 1224 then
        if o < 1223 then k == 1429 else k == 917
       else
        if o < 1226 then k == 1685 else (k == 249 || k == 761)
      else
       if o < 1229 then
        if o < 1228 then k == 1977 else k == 449
       else
        if o < 1230 then k == 435 else (k == 249 || k == 503)
    else
     if o < 1247 then
      if o < 1236 then
       if o < 1232 then k == 2243 else if o < 1235 then k == 1209 else k == 1721
      else
       if o < 1240 then if o < 1237 then k == 683 else k == 1255 else if o < 1244 then k == 743 else k == 1429
     else
      if o < 1255 then
       if o < 1250 then if o < 1249 then k == 917 else k == 1434 else if o < 1254 then k == 427 else k == 922
      else
       if o < 1259 then if o < 1256 then k == 1195 else k == 939 else if o < 1260 then k == 691 else k == 683
  }

  function GotoRowKey8(o: int, k: int): bool {
    if o < 1280 then
     if o < 1266 then
      if o < 1263 then
       if o < 1262 then k == 427 else k == 506
      else
       if o < 1264 then k == 723 else if o < 1265 then k == 1987 else k == 1018
     else
      if o < 1268 then
       if o < 1267 then k == 1731 else (k == 246 || k == 757)
      else
       if o < 1269 then k == 1475 else if o < 1270 then k == 941 else k == 1219
    else
     if o < 1294 then
      if o < 1284 then
       if o < 1283 then (k == 178 || k == 2233) else (k == 178 || k == 939)
      else
       if o < 1288 then k == 1179 else if o < 1292 then k == 667 else (k == 165 || k == 1685)
     else
      if o < 1299 then
       if o < 1297 then (k == 165 || k == 416) else if o < 1298 then k == 405 else k == 917
      else
       if o < 1302 then (k == 165 || k == 928) else if o < 1305 then k == 405 else k == 661
  }

  /** and for nonterminals. */
  function GotoRowKey(o: int, k: int): bool {
    if o < 1032 then
     if o < 747 then
      if o < 404 then GotoRowKey0(o, k) else GotoRowKey1(o, k)
     else
      if o < 926 then GotoRowKey2(o, k) else GotoRowKey3(o, k)
    else
     if o < 1173 then
      if o < 1122 then GotoRowKey4(o, k) else GotoRowKey5(o, k)
     else
      if o < 1213 then GotoRowKey6(o, k) else if o < 1261 then GotoRowKey7(o, k) else GotoRowKey8(o, k)
  }

  function SuffixPair0(a: int, b: int): bool {
    if a < 785 then
     if a < 497 then
      if a < 433 then
       if a < 209 then a == 17 && b == 1 else if a < 210 then a == 209 && b == 161 else a == 210 && b == 162
      else
       if a < 435 then
        if a < 434 then a == 433 && b == 417 else a == 434 && b == 418
       else
        if a < 449 then a == 435 && b == 419 else a == 449 && b == 417
     else
      if a < 609 then
       if a < 529 then
        if a < 513 then a == 497 && b == 481 else a == 513 && b == 497
       else
        if a < 545 then a == 529 && b == 497 else a == 545 && b == 497
      else
       if a < 721 then
        if a < 610 then a == 609 && b == 1041 else a == 610 && b == 1042
       else
        if a < 769 then a == 721 && (b == 628 || b == 1065) else a == 769 && b == 753
    else
     if a < 1233 then
      if a < 945 then
       if a < 817 then
        a == 785 && b == 753
       else
        if a < 881 then a == 817 && b == 801 else a == 881 && b == 561
      else
       if a < 1042 then
        if a < 1041 then a == 945 && b == 929 else a == 1041 && b == 609
       else
        if a < 1043 then a == 1042 && b == 610 else a == 1043 && b == 611
     else
      if a < 1329 then
       if a < 1249 then
        if a < 1234 then a == 1233 && b == 225 else a == 1234 && b == 226
       else
        if a < 1297 then a == 1249 && b == 1185 else a == 1297 && b == 1282
      else
       if a < 1505 then
        if a < 1489 then a == 1329 && b == 1313 else a == 1489 && b == 1473
       else
        if a < 1585 then a == 1505 && b == 1473 else a == 1585 && (b == 1570 || b == 1667)
  }

  function SuffixPair1(a: int, b: int): bool {
    if a < 2145 then
     if a < 1777 then
      if a < 1649 then
       if a < 1634 then
        a == 1633 && b == 1617
       else
        if a < 1635 then a == 1634 && b == 1618 else a == 1635 && b == 1619
      else
       if a < 1666 then
        if a < 1665 then a == 1649 && b == 1617 else a == 1665 && b == 1649
       else
        if a < 1761 then a == 1666 && b == 1650 else a == 1761 && b == 1745
     else
      if a < 2113 then
       if a < 1937 then
        if a < 1778 then a == 1777 && b == 1761 else a == 1778 && b == 1762
       else
        if a < 1953 then
         a == 1937 && (b == 1012 || b == 1027 || b == 1923 || b == 3338)
        else
         a == 1953 && b == 2865
      else
       if a < 2129 then
        if a < 2114 then a == 2113 && b == 2097 else a == 2114 && b == 2098
       else
        if a < 2130 then a == 2129 && b == 2097 else a == 2130 && b == 2098
    else
     if a < 2290 then
      if a < 2225 then
       if a < 2193 then
        a == 2145 && b == 1281
       else
        if a < 2209 then a == 2193 && b == 2145 else a == 2209 && (b == 2199 || b == 3894)
      else
       if a < 2273 then
        if a < 2226 then a == 2225 && b == 2209 else a == 2226 && b == 2210
       else
        if a < 2289 then a == 2273 && b == 1281 else a == 2289 && b == 2273
     else
      if a < 2369 then
       if a < 2292 then
        if a < 2291 then a == 2290 && b == 2274 else a == 2291 && b == 2275
       else
        if a < 2293 then a == 2292 && b == 2276 else a == 2293 && b == 2277
      else
       if a < 2466 then
        if a < 2465 then
         a == 2369 && (b == 1875 || b == 2228 || b == 2258 || b == 2354 || b == 3763)
        else
         a == 2465 && b == 1506
       else
        if a < 2481 then a == 2466 && b == 1507 else a == 2481 && b == 2465
  }

  function SuffixPair2(a: int, b: int): bool {
    if a < 2801 then
     if a < 2657 then
      if a < 2593 then
       if a < 2483 then
        a == 2482 && b == 2466
       else
        if a < 2561 then
         a == 2483 && b == 2467
        else
         a == 2561 && (b == 499 || b == 611 || b == 2098 || b == 2402 || b == 2579 || b == 2644 || b == 2835 ||
             b == 2865 || b == 3011 || b == 3155 || b == 3170 || b == 4051)
      else
       if a < 2610 then
        if a < 2609 then a == 2593 && b == 2433 else a == 2609 && b == 2593
       else
        if a < 2641 then a == 2610 && b == 2594 else a == 2641 && b == 2401
     else
      if a < 2721 then
       if a < 2689 then
        if a < 2673 then
         a == 2657 && (b == 499 || b == 611 || b == 2098 || b == 2402 || b == 2579 || b == 2644 || b == 2865 ||
             b == 3155 || b == 3170 || b == 4051)
        else
         a == 2673 && (b == 499 || b == 611 || b == 2098 || b == 2402 || b == 2579 || b == 2644 || b == 2865 ||
             b == 3011 || b == 3155 || b == 3170 || b == 4051)
       else
        if a < 2705 then
         a == 2689 && (b == 499 || b == 611 || b == 2098 || b == 2402 || b == 2579 || b == 2644 || b == 2835 ||
             b == 2865 || b == 3011 || b == 3155 || b == 3170 || b == 4051)
        else
         a == 2705 && (b == 499 || b == 611 || b == 2098 || b == 2402 || b == 2579 || b == 2644 || b == 2865 ||
             b == 3011 || b == 3155 || b == 3170 || b == 4051)
      else
       if a < 2753 then
        if a < 2737 then
         a == 2721 && (b == 499 || b == 611 || b == 2098 || b == 2402 || b == 2579 || b == 2644 || b == 2835 ||
             b == 2865 || b == 3011 || b == 3155 || b == 3170 || b == 4051)
        else
         a == 2737 && (b == 499 || b == 611 || b == 2098 || b == 2402 || b == 2579 || b == 2644 || b == 2835 ||
             b == 2865 || b == 3011 || b == 3155 || b == 3170 || b == 4051)
       else
        if a < 2769 then
         a == 2753 && (b == 499 || b == 611 || b == 2098 || b == 2402 || b == 2579 || b == 2644 || b == 2835 ||
             b == 2865 || b == 3011 || b == 3155 || b == 3170 || b == 4051)
        else
         a == 2769 && (b == 499 || b == 611 || b == 2098 || b == 2402 || b == 2579 || b == 2644 || b == 2835 ||
             b == 2865 || b == 3011 || b == 3155 || b == 3170 || b == 4051)
    else
     if a < 2881 then
      if a < 2834 then
       if a < 2817 then
        a == 2801 && b == 2866
       else
        if a < 2833 then
         a == 2817 && (b == 1474 || b == 1939 || b == 2865 || b == 4053)
        else
         a == 2833 && b == 2817
      else
       if a < 2849 then
        if a < 2835 then a == 2834 && b == 2818 else a == 2835 && b == 2819
       else
        if a < 2865 then
         a == 2849 && (b == 499 || b == 611 || b == 2098 || b == 2402 || b == 2579 || b == 2644 || b == 2865 ||
             b == 3011 || b == 3155 || b == 3170 || b == 4051)
        else
         a == 2865 && (b == 499 || b == 611 || b == 1474 || b == 1794 || b == 1939 || b == 2066 || b == 2098 ||
             b == 2116 || b == 2132 || b == 2178 || b == 2213 || b == 2231 || b == 2243 || b == 2261 ||
             b == 2402 || b == 2561 || b == 2579 || b == 2644 || b == 2659 || b == 2675 || b == 2691 ||
             b == 2707 || b == 2723 || b == 2739 || b == 2755 || b == 2771 || b == 2819 || b == 2837 ||
             b == 2883 || b == 2900 || b == 2914 || b == 2930 || b == 2946 || b == 2962 || b == 3011 ||
             b == 3013 || b == 3155 || b == 3157 || b == 3170 || b == 3172 || b == 3186 || b == 3267 ||
             b == 3794 || b == 4051 || b == 4053 || b == 4067 || b == 4098)
     else
      if a < 3009 then
       if a < 2898 then
        if a < 2897 then
         a == 2881 && (b == 499 || b == 611 || b == 2098 || b == 2402 || b == 2579 || b == 2644 || b == 2865 ||
             b == 3011 || b == 3155 || b == 3170 || b == 4051)
        else
         a == 2897 && b == 2881
       else
        if a < 2993 then a == 2898 && b == 2882 else a == 2993 && b == 2866
      else
       if a < 3057 then
        if a < 3041 then
         a == 3009 && (b == 1474 || b == 1939 || b == 2865 || b == 4053)
        else
         a == 3041 && b == 2866
       else
        if a < 3073 then
         a == 3057 && (b == 1474 || b == 1939 || b == 2865 || b == 4053)
        else
         a == 3073 && b == 2401
  }

  function SuffixPair3(a: int, b: int): bool {
    if a < 3537 then
     if a < 3265 then
      if a < 3105 then
       if a < 3090 then
        a == 3089 && b == 3057
       else
        if a < 3091 then a == 3090 && b == 3058 else a == 3091 && b == 3059
      else
       if a < 3153 then
        if a < 3106 then a == 3105 && b == 3057 else a == 3106 && b == 3058
       else
        if a < 3217 then a == 3153 && b == 3139 else a == 3217 && b == 2561
     else
      if a < 3329 then
       if a < 3267 then
        if a < 3266 then a == 3265 && (b == 1379 || b == 2035 || b == 2642) else a == 3266 && b == 2643
       else
        if a < 3281 then a == 3267 && b == 2644 else a == 3281 && (b == 2402 || b == 2561)
      else
       if a < 3473 then
        if a < 3409 then a == 3329 && b == 225 else a == 3409 && (b == 1060 || b == 3394)
       else
        if a < 3505 then a == 3473 && b == 1185 else a == 3505 && b == 3489
    else
     if a < 3570 then
      if a < 3553 then
       if a < 3538 then
        a == 3537 && b == 3521
       else
        if a < 3539 then a == 3538 && b == 3522 else a == 3539 && b == 3523
      else
       if a < 3555 then
        if a < 3554 then a == 3553 && b == 3521 else a == 3554 && b == 3522
       else
        if a < 3569 then a == 3555 && b == 3523 else a == 3569 && b == 3537
     else
      if a < 3586 then
       if a < 3572 then
        if a < 3571 then a == 3570 && b == 3538 else a == 3571 && b == 3539
       else
        if a < 3585 then a == 3572 && b == 3540 else a == 3585 && b == 3553
      else
       if a < 3588 then
        if a < 3587 then a == 3586 && b == 3554 else a == 3587 && b == 3555
       else
        if a < 3633 then a == 3588 && b == 3556 else a == 3633 && b == 225
  }

  function SuffixPair4(a: int, b: int): bool {
    if a < 4433 then
     if a < 4161 then
      if a < 3969 then
       if a < 3761 then
        a == 3649 && b == 226
       else
        if a < 3809 then a == 3761 && b == 3745 else a == 3809 && b == 3636
      else
       if a < 4033 then
        if a < 3970 then a == 3969 && b == 3953 else a == 3970 && b == 3954
       else
        if a < 4129 then a == 4033 && b == 1185 else a == 4129 && b == 4113
     else
      if a < 4241 then
       if a < 4194 then
        if a < 4193 then a == 4161 && b == 4145 else a == 4193 && b == 4177
       else
        if a < 4209 then a == 4194 && b == 4178 else a == 4209 && b == 4179
      else
       if a < 4369 then
        if a < 4257 then a == 4241 && b == 4225 else a == 4257 && b == 225
       else
        if a < 4401 then a == 4369 && b == 4353 else a == 4401 && (b == 4354 || b == 4371)
    else
     if a < 4753 then
      if a < 4641 then
       if a < 4545 then
        a == 4433 && b == 4417
       else
        if a < 4609 then a == 4545 && b == 4529 else a == 4609 && b == 322
      else
       if a < 4673 then
        if a < 4657 then a == 4641 && b == 2433 else a == 4657 && b == 2513
       else
        if a < 4689 then a == 4673 && b == 2449 else a == 4689 && b == 417
     else
      if a < 4929 then
       if a < 4817 then
        if a < 4801 then a == 4753 && (b == 4199 || b == 4612 || b == 4626) else a == 4801 && b == 4610
       else
        if a < 4913 then a == 4817 && b == 4802 else a == 4913 && b == 1393
      else
       if a < 5121 then
        if a < 4977 then a == 4929 && b == 1363 else a == 4977 && b == 3265
       else
        if a < 5233 then a == 5121 && b == 3841 else a == 5233 && b == 4243
  }

  function SuffixPair5(a: int, b: int): bool {
    if a < 5281 then
     a == 5249 && (b == 5217 || b == 5235)
    else
     if a < 5297 then a == 5281 && (b == 4306 || b == 5283) else a == 5297 && (b == 4306 || b == 5283)
  }

  /** Pairs of positions where what is behind the first is the end of what is behind the second. */
  function SuffixPair(a: int, b: int): bool {
    if a < 3089 then
     if a < 1633 then SuffixPair0(a, b) else if a < 2482 then SuffixPair1(a, b) else SuffixPair2(a, b)
    else
     if a < 3649 then SuffixPair3(a, b) else if a < 5249 then SuffixPair4(a, b) else SuffixPair5(a, b)
  }

  /** Symbol z may fill a slot: it is the slot's symbol, a token of its class, or the other side of a unit rule that
      the generator optimized out. */
  function Covers(slot: int, z: int): bool {
    || slot == z
    || (slot == 252 && (z == 55 || z == 97))
    || (slot == 253 && (z == 55 || z == 56))
    || (slot == 254 && (z == 117 || z == 118))
    || (slot == 255 && (z == 26 || z == 124))
    || (slot == 256 && (z == 132 || z == 133))
    || (slot == 257 && (z == 40 || z == 38 || z == 41 || z == 39))
    || (slot == 258 && (z == 37 || z == 36))
    || (slot == 259 && (z == 43 || z == 44 || z == 45 || z == 46))
    || (slot == 260 && (z == 47 || z == 48))
    || (slot == 261 && (z == 49 || z == 50 || z == 51))
    || (slot == 262 && (z == 31 || z == 30))
    || (slot == 263 && (z == 34 || z == 35))
    || (slot == 264 && (z == 134 || z == 132))
    || (slot == 265 && (z == 109 || z == 108))
    || (slot == 145 && z == 146)
    || (slot == 168 && z == 169)
    || (slot == 168 && z == 170)
    || (slot == 183 && z == 185)
    || (slot == 188 && z == 179)
    || (slot == 190 && z == 191)
    || (slot == 194 && z == 195)
    || (slot == 173 && z == 172)
    || (slot == 230 && z == 169)
    || (slot == 230 && z == 152)
  }

  function Weight0(x: int): int {
    if x < 164 then
     if x < 152 then
      if x < 146 then
       if x < 144 then 8 else if x < 145 then 2 else 3
      else
       if x < 148 then if x < 147 then 4 else -1 else if x < 149 then -2 else -1
     else
      if x < 157 then
       if x < 154 then if x < 153 then 7 else -1 else if x < 155 then 18 else 7
      else
       if x < 161 then if x < 160 then -1 else 3 else if x < 163 then -1 else 0
    else
     if x < 172 then
      if x < 168 then
       if x < 165 then 5 else if x < 167 then -1 else 7
      else
       if x < 170 then if x < 169 then 6 else 7 else if x < 171 then 15 else 5
     else
      if x < 180 then
       if x < 174 then if x < 173 then 7 else 6 else if x < 179 then -1 else 6
      else
       if x < 182 then if x < 181 then 14 else 7 else if x < 183 then -1 else 13
  }

  function Weight1(x: int): int {
    if x < 206 then
     if x < 193 then
      if x < 188 then
       if x < 185 then -1 else if x < 186 then 14 else 4
      else
       if x < 191 then if x < 190 then -1 else 6 else if x < 192 then 7 else -1
     else
      if x < 197 then
       if x < 195 then if x < 194 then 5 else 2 else if x < 196 then 3 else -1
      else
       if x < 199 then if x < 198 then 7 else -1 else if x < 200 then 3 else -1
    else
     if x < 217 then
      if x < 211 then
       if x < 207 then 28 else if x < 208 then 5 else -1
      else
       if x < 213 then if x < 212 then 0 else -1 else if x < 214 then 7 else -1
     else
      if x < 221 then
       if x < 219 then if x < 218 then 6 else 20 else if x < 220 then 6 else -1
      else
       if x < 226 then if x < 224 then 7 else -1 else if x < 227 then 27 else -1
  }

  function Weight2(x: int): int {
    if x < 242 then
     if x < 234 then
      if x < 232 then if x < 231 then 6 else 28 else if x < 233 then 6 else -1
     else
      if x < 238 then if x < 235 then 7 else -1 else if x < 239 then 6 else -1
    else
     if x < 246 then
      if x < 244 then if x < 243 then 4 else -1 else if x < 245 then 42 else -2
     else
      if x < 249 then if x < 247 then -1 else 7 else if x < 250 then -1 else if x < 251 then 29 else 8
  }

  /** Weights for which every rule makes the stack lighter. */
  function Weight(x: int): int {
    if x < 184 then Weight0(x) else if x < 230 then Weight1(x) else Weight2(x)
  }

  predicate Suffix(a: int, b: int) {
    Slot(a) == 0 || a == b || SuffixPair(a, b)
  }
}
